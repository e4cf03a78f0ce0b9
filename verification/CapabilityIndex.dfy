/**
 The capability registry: profiles with an inverted index from capability to profiles, and the choice of
 the best worker.

 Scores are told on values first, then the registry as the object that keeps profiles, index and metrics.
 The clock is an input.
 */
module CapabilityIndex {
  import opened Basics
  import opened Sorting

  type ProfileId = string

  datatype Profile = Profile(id: ProfileId, capabilities: set<Capability>)

  /** Times are in hours. */
  datatype Metrics = Metrics(total: nat, failed: nat, load: nat, lastActive: Option<real>)

  type Profiles = map<ProfileId, Profile>
  type Index = map<Capability, set<ProfileId>>

  function Bucket(index: Index, c: Capability): set<ProfileId> {
    if c in index then index[c] else {}
  }

  /** The profiles with a capability, by looking at each of them. */
  function Having(profiles: Profiles, c: Capability): set<ProfileId> {
    set id | id in profiles && c in profiles[id].capabilities
  }

  /** The profiles with all of some capabilities, by looking at each of them. */
  function Scan(profiles: Profiles, required: set<Capability>): set<ProfileId> {
    set id | id in profiles && required <= profiles[id].capabilities
  }

  /** The index has a bucket for every capability some profile has, with exactly those profiles, and no others. */
  ghost predicate Indexed(index: Index, profiles: Profiles) {
    forall c :: Bucket(index, c) == Having(profiles, c) && (c in index ==> index[c] != {})
  }

  ghost predicate Named(profiles: Profiles) {
    forall id | id in profiles :: profiles[id].id == id
  }

  // ----- Scoring -----

  function SuccessRate(m: Metrics): real {
    if m.total == 0 then 1.0 else (m.total - m.failed) as real / m.total as real
  }

  function Score(m: Metrics, now: real): real {
    50.0 + SuccessRate(m) * 40.0
    + (if m.load == 0 then 30.0 else -10.0 * m.load as real)
    + match m.lastActive
      case None => 0.0
      case Some(t) => if now - t < 0.5 then 10.0 else if now - t < 24.0 then 5.0 else 0.0
  }

  function MetricsOf(metrics: map<ProfileId, Metrics>, id: ProfileId): Metrics {
    if id in metrics then metrics[id] else Metrics(0, 0, 0, None)
  }

  datatype Scored = Scored(score: real, id: ProfileId)

  predicate Better(a: Scored, b: Scored) {
    a.score > b.score || (a.score == b.score && StringLe(a.id, b.id))
  }

  lemma {:induction false} BetterOrders()
    ensures TotalPreorder(Better)
  {
    forall a, b ensures Better(a, b) || Better(b, a) { StringLeTotal(a.id, b.id); }
    forall a, b, c | Better(a, b) && Better(b, c) ensures Better(a, c) {
      if StringLe(a.id, b.id) && StringLe(b.id, c.id) { StringLeTransitive(a.id, b.id, c.id); }
    }
  }

  lemma {:induction false} RateIsFraction(m: Metrics)
    requires m.failed <= m.total
    ensures 0.0 <= SuccessRate(m) <= 1.0 && (m.failed == 0 ==> SuccessRate(m) == 1.0)
  {
    if m.total > 0 {
      QuotientIsFraction((m.total - m.failed) as real, m.total as real);
    }
  }

  lemma {:induction false} QuotientIsFraction(n: real, d: real)
    requires 0.0 <= n <= d && 0.0 < d
    ensures 0.0 <= n / d <= 1.0 && (n == d ==> n / d == 1.0)
  {
    assert n / d * d == n;
  }

  /** Whatever their records, an idle worker ranks before every worker with more than two tasks, and no later in
      score than one with two; a worker with one task outranks it only by a record of failures or by being active. */
  lemma {:induction false} IdleBeatsLoaded(idle: Metrics, busy: Metrics, now: real)
    requires idle.load == 0 < busy.load && idle.failed <= idle.total && busy.failed <= busy.total
    ensures busy.load > 2 ==> Score(idle, now) > Score(busy, now)
    ensures busy.load == 2 ==> Score(idle, now) >= Score(busy, now)
    ensures Score(busy, now) > Score(idle, now) ==> busy.load == 1 && idle.failed > 0 && idle.lastActive != busy.lastActive
  {
    RateIsFraction(idle);
    RateIsFraction(busy);
    var load := busy.load as real;
    assert busy.load > 2 ==> load >= 3.0;
  }

  // ----- The registry as an object -----

  class CapabilityRegistry {
    var profiles: Profiles
    var index: Index
    var metrics: map<ProfileId, Metrics>

    ghost predicate Valid()
      reads this
    {
      Indexed(index, profiles) && Named(profiles)
    }

    constructor ()
      ensures Valid() && profiles == map[] && metrics == map[]
    {
      profiles, index, metrics := map[], map[], map[];
    }

    /** Takes a profile out of the buckets of its capabilities; empty buckets go. */
    method Unlist(id: ProfileId, capabilities: set<Capability>)
      requires forall c | c in capabilities :: c in index
      requires forall c | c in index :: index[c] != {}
      modifies this`index
      ensures forall c :: Bucket(index, c) == if c in capabilities then Bucket(old(index), c) - {id} else Bucket(old(index), c)
      ensures forall c | c in index :: index[c] != {}
    {
      var left := capabilities;
      while left != {}
        invariant left <= capabilities
        invariant forall c :: Bucket(index, c) == if c in capabilities - left then Bucket(old(index), c) - {id} else Bucket(old(index), c)
        invariant forall c | c in index :: index[c] != {}
        invariant forall c | c in left :: c in index
        decreases left
      {
        var c :| c in left;
        left := left - {c};
        var bucket := index[c] - {id};
        index := if bucket == {} then index - {c} else index[c := bucket];
      }
    }

    method List(id: ProfileId, capabilities: set<Capability>)
      requires forall c | c in index :: index[c] != {}
      modifies this`index
      ensures forall c :: Bucket(index, c) == if c in capabilities then Bucket(old(index), c) + {id} else Bucket(old(index), c)
      ensures forall c | c in index :: index[c] != {}
    {
      var left := capabilities;
      while left != {}
        invariant left <= capabilities
        invariant forall c :: Bucket(index, c) == if c in capabilities - left then Bucket(old(index), c) + {id} else Bucket(old(index), c)
        invariant forall c | c in index :: index[c] != {}
        decreases left
      {
        var c :| c in left;
        left := left - {c};
        index := index[c := (if c in index then index[c] else {}) + {id}];
      }
    }

    method Register(p: Profile)
      requires Valid()
      modifies this`profiles, this`index
      ensures Valid() && profiles == old(profiles)[p.id := p]
    {
      ghost var before := profiles;
      if p.id in profiles {
        HasBuckets(index, profiles, p.id);
        Unlist(p.id, profiles[p.id].capabilities);
      }
      profiles := profiles[p.id := p];
      List(p.id, p.capabilities);
      forall c ensures Bucket(index, c) == Having(profiles, c) {
        HavingAfter(before, p, c);
      }
    }

    method Unregister(id: ProfileId)
      requires Valid()
      modifies this
      ensures Valid() && profiles == old(profiles) - {id} && metrics == old(metrics) - if id in old(profiles) then {id} else {}
    {
      if id in profiles {
        ghost var before := profiles;
        HasBuckets(index, profiles, id);
        var capabilities := profiles[id].capabilities;
        profiles := profiles - {id};
        Unlist(id, capabilities);
        metrics := metrics - {id};
        forall c ensures Bucket(index, c) == Having(profiles, c) {
          HavingWithout(before, id, c);
        }
      }
    }

    /** The ids of the workers with every required capability; their order is not told. */
    method FindWorkers(required: set<Capability>) returns (found: set<ProfileId>)
      requires Valid()
      ensures found == Scan(profiles, required)
    {
      if required == {} {
        return profiles.Keys;
      }
      var first :| first in required;
      var left := required - {first};
      found := Bucket(index, first);
      assert found == Scan(profiles, {first});
      while left != {}
        invariant left <= required
        invariant found == Scan(profiles, required - left)
        decreases left
      {
        var c :| c in left;
        ghost var done := required - left;
        left := left - {c};
        found := found * Bucket(index, c);
        ScanMore(profiles, done, c);
        assert required - left == done + {c};
      }
    }

    /** The highest score wins, the least id among equals. */
    method FindBestWorker(required: set<Capability>, now: real) returns (best: Option<ProfileId>)
      requires Valid()
      ensures best.None? <==> Scan(profiles, required) == {}
      ensures best.Some? ==>
                && best.value in Scan(profiles, required)
                && forall id | id in Scan(profiles, required) ::
                     Better(Scored(ScoreWorker(best.value, now), best.value), Scored(ScoreWorker(id, now), id))
    {
      var candidates := FindWorkers(required);
      if candidates == {} { return None; }
      var left, scored: seq<Scored> := candidates, [];
      while left != {}
        invariant left <= candidates
        invariant forall x | x in scored :: x.id in candidates - left && x.score == ScoreWorker(x.id, now)
        invariant forall id | id in candidates - left :: Scored(ScoreWorker(id, now), id) in scored
        decreases left
      {
        var id :| id in left;
        left := left - {id};
        scored := scored + [Scored(ScoreWorker(id, now), id)];
      }
      var any :| any in candidates;
      assert Scored(ScoreWorker(any, now), any) in scored;
      var ranked := Rank(scored);
      return Some(ranked[0].id);
    }

    function ScoreWorker(id: ProfileId, now: real): real
      reads this
    {
      Score(MetricsOf(metrics, id), now)
    }
  }

  /** Sorts by falling score, then by id. */
  method Rank(scored: seq<Scored>) returns (ranked: seq<Scored>)
    requires |scored| > 0
    ensures |ranked| > 0 && ranked[0] in scored && forall x | x in scored :: Better(ranked[0], x)
  {
    ranked := Sort(Better, scored);
    BetterOrders();
    SortIs(Better, scored);
    assert |multiset(ranked)| == |scored|;
    assert ranked[0] in multiset(scored);
    StringLeTotal(ranked[0].id, ranked[0].id);
    forall x | x in scored ensures Better(ranked[0], x) { assert x in multiset(ranked); }
  }

  lemma {:induction false} HasBuckets(index: Index, profiles: Profiles, id: ProfileId)
    requires Indexed(index, profiles) && id in profiles
    ensures forall c | c in profiles[id].capabilities :: c in index
  {
    forall c | c in profiles[id].capabilities ensures c in index {
      assert id in Having(profiles, c);
      assert Bucket(index, c) == Having(profiles, c);
    }
  }

  lemma {:induction false} HavingAfter(profiles: Profiles, p: Profile, c: Capability)
    ensures Having(profiles[p.id := p], c) ==
            if c in p.capabilities then Having(profiles, c) + {p.id} else Having(profiles, c) - {p.id}
  {}

  lemma {:induction false} HavingWithout(profiles: Profiles, id: ProfileId, c: Capability)
    ensures Having(profiles - {id}, c) == Having(profiles, c) - {id}
  {}

  lemma {:induction false} ScanMore(profiles: Profiles, required: set<Capability>, c: Capability)
    ensures Scan(profiles, required + {c}) == Scan(profiles, required) * Having(profiles, c)
  {}

  // ----- Whole runs -----

  datatype Event = Add(profile: Profile) | Drop(id: ProfileId)

  function After(profiles: Profiles, e: Event): Profiles {
    match e
    case Add(p) => profiles[p.id := p]
    case Drop(id) => profiles - {id}
  }

  function AllAfter(events: seq<Event>, n: nat): Profiles
    requires n <= |events|
  {
    if n == 0 then map[] else After(AllAfter(events, n - 1), events[n - 1])
  }

  /** After any sequence of registrations and removals the index is that of the profiles left, and a
      search by it finds what a look at every profile finds. */
  method Replay(events: seq<Event>, required: set<Capability>) returns (r: CapabilityRegistry, found: set<ProfileId>)
    ensures fresh(r) && r.Valid() && r.profiles == AllAfter(events, |events|)
    ensures found == Scan(AllAfter(events, |events|), required)
  {
    r := new CapabilityRegistry();
    for i := 0 to |events|
      invariant fresh(r) && r.Valid() && r.profiles == AllAfter(events, i)
    {
      match events[i]
      case Add(p) => r.Register(p);
      case Drop(id) => r.Unregister(id);
    }
    found := r.FindWorkers(required);
  }
}
