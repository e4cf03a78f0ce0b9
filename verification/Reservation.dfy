/**
 The planner's view of who can serve a task against what the registry hands out to a whole wave.
 */
module Reservation {
  import opened Basics
  import opened Agents

  const TOOLS: set<Capability> :=
    {"file_read", "file_write", "shell_execute", "web_research", "mcp_access", "default"}

  /** The planner: all required capabilities, or all of them that are not tools. */
  predicate CanServe(caps: set<Capability>, required: set<Capability>) {
    var primary := required - TOOLS;
    required == {} || required <= caps || (primary != {} && primary <= caps)
  }

  /** What the two passes of a reservation come to for one agent. */
  predicate RegistryServes(caps: set<Capability>, required: set<Capability>) {
    var stripped := required * PRIMARY;
    required <= caps || (stripped != {} && stripped <= caps)
  }

  lemma {:induction false} Vocabulary()
    ensures PRIMARY !! TOOLS
  {
    forall p | p in PRIMARY ensures p !in TOOLS { assert p[2] in {'a', 's', 'd', 'v', 'm'}; }
  }

  /** Planner and registry agree about every agent exactly when the requirement stays within the known
      vocabulary, or wholly outside it. */
  lemma {:induction false} AgreementIsExact(required: set<Capability>)
    ensures (forall caps :: CanServe(caps, required) <==> RegistryServes(caps, required))
       <==> (required <= PRIMARY + TOOLS || required !! PRIMARY + TOOLS)
  {
    Vocabulary();
    var primary, stripped := required - TOOLS, required * PRIMARY;
    if required <= PRIMARY + TOOLS {
      assert primary == stripped;
    } else if required !! PRIMARY + TOOLS {
      assert primary == required && stripped == {};
    } else if stripped == {} {
      assert required * (PRIMARY + TOOLS) != {};
      var tool :| tool in required * (PRIMARY + TOOLS);
      assert CanServe(primary, required) && tool !in primary;
      assert !RegistryServes(primary, required);
    } else {
      assert RegistryServes(stripped, required);
      var other :| other in required && other !in PRIMARY + TOOLS;
      assert other in primary && other !in stripped;
      assert !CanServe(stripped, required);
    }
  }

  /** An agent of the run that is free to take a task, as far as the planner can tell. */
  predicate Free(a: Agent, run: RunId) {
    a.run == run && a.status == Idle && a.maxConcurrency >= 1
  }

  lemma {:induction false} ReserveServes(pool: Pool, run: RunId, required: set<Capability>, preferred: Option<AgentId>)
    ensures var k := ReserveIndex(pool, run, required, preferred);
            && (k < |pool| ==> Free(pool[k], run) && RegistryServes(CapSet(pool[k].capabilities), required))
            && (k == |pool| ==> forall i | 0 <= i < |pool| ::
                  !(Free(pool[i], run) && RegistryServes(CapSet(pool[i].capabilities), required)))
  {
    var stripped := required * PRIMARY;
    FirstFitFinds(pool, preferred, run, required);
    FirstFitFinds(pool, preferred, run, stripped);
    if ReserveIndex(pool, run, required, preferred) == |pool| {
      forall i | 0 <= i < |pool|
        ensures !(Free(pool[i], run) && RegistryServes(CapSet(pool[i].capabilities), required))
      {
        assert !Fits(pool[i], run, required);
        assert stripped != {} && stripped != required ==> !Fits(pool[i], run, stripped);
      }
    }
  }

  /** Within the vocabulary a reservation succeeds exactly when some free agent can serve the task by
      the planner's rule, and what it returns is such an agent. */
  lemma {:induction false} ReservationMeetsPlan(pool: Pool, run: RunId, required: set<Capability>, preferred: Option<AgentId>)
    requires required <= PRIMARY + TOOLS || required !! PRIMARY + TOOLS
    ensures var k := ReserveIndex(pool, run, required, preferred);
            && (k < |pool| <==> exists i :: 0 <= i < |pool| && Free(pool[i], run)
                                            && CanServe(CapSet(pool[i].capabilities), required))
            && (k < |pool| ==> Free(pool[k], run) && CanServe(CapSet(pool[k].capabilities), required))
  {
    AgreementIsExact(required);
    ReserveServes(pool, run, required, preferred);
  }

  /** The planned agent is the one reserved exactly when it has every capability, or no free agent has and
      it has the primary ones the second pass asks for. */
  lemma {:induction false} HintHonoured(pool: Pool, run: RunId, required: set<Capability>, h: nat)
    requires DistinctIds(pool) && h < |pool| && pool[h].id != ""
    ensures ReserveIndex(pool, run, required, Some(pool[h].id)) == h
       <==> (Fits(pool[h], run, required)
             || ((forall i | 0 <= i < |pool| :: !Fits(pool[i], run, required))
                 && required * PRIMARY !in {{}, required} && Fits(pool[h], run, required * PRIMARY)))
  {
    var preferred := Some(pool[h].id);
    IndexOfIs(pool, h);
    FirstFitFinds(pool, preferred, run, required);
    FirstFitFinds(pool, preferred, run, required * PRIMARY);
  }

  // ----- A wave -----

  datatype Assignment = Assignment(task: TaskId, required: set<Capability>, hint: AgentId)

  /** The planned agent is registered, free, and has all the capabilities. */
  predicate HintFits(pool: Pool, run: RunId, x: Assignment) {
    x.hint != "" && IndexOf(pool, x.hint) < |pool| && Fits(pool[IndexOf(pool, x.hint)], run, x.required)
  }

  ghost predicate HintsApart(wave: seq<Assignment>) {
    forall i, j | 0 <= i < j < |wave| :: wave[i].hint != wave[j].hint
  }

  /** Every task of the wave has an idle agent of its own with all the capabilities it needs. */
  ghost predicate Hinted(pool: Pool, run: RunId, wave: seq<Assignment>) {
    DistinctIds(pool) && HintsApart(wave) && forall i | 0 <= i < |wave| :: HintFits(pool, run, wave[i])
  }

  /** Reserves for the tasks one after the other; who was reserved for each. */
  function ReserveWave(pool: Pool, run: RunId, wave: seq<Assignment>, now: int): seq<Option<AgentId>>
    decreases |wave|
  {
    if |wave| == 0 then []
    else
      var k := ReserveIndex(pool, run, wave[0].required, Some(wave[0].hint));
      var rest := ReserveWave(ReserveIn(pool, run, wave[0].required, wave[0].task, Some(wave[0].hint), now), run, wave[1..], now);
      [if k < |pool| then Some(pool[k].id) else None] + rest
  }

  function Hints(wave: seq<Assignment>): seq<Option<AgentId>> {
    seq(|wave|, i requires 0 <= i < |wave| => Some(wave[i].hint))
  }

  lemma {:induction false} ReserveHint(pool: Pool, run: RunId, x: Assignment, now: int)
    requires HintFits(pool, run, x)
    ensures var k := IndexOf(pool, x.hint);
            && ReserveIndex(pool, run, x.required, Some(x.hint)) == k
            && ReserveIn(pool, run, x.required, x.task, Some(x.hint), now) == pool[k := Reserved(pool[k], x.task, now)]
  {}

  /** Taking one agent leaves another where it was. */
  lemma {:induction false} OthersStay(pool: Pool, run: RunId, k: nat, a: Agent, y: Assignment)
    requires DistinctIds(pool) && k < |pool| && a.id == pool[k].id && y.hint != a.id && HintFits(pool, run, y)
    ensures DistinctIds(pool[k := a]) && HintFits(pool[k := a], run, y)
  {
    var next, j := pool[k := a], IndexOf(pool, y.hint);
    assert next[j] == pool[j];
    IndexOfIs(next, j);
  }

  lemma {:induction false} HintedRest(pool: Pool, run: RunId, wave: seq<Assignment>, now: int)
    requires |wave| > 0 && Hinted(pool, run, wave)
    ensures Hinted(ReserveIn(pool, run, wave[0].required, wave[0].task, Some(wave[0].hint), now), run, wave[1..])
  {
    var x, k := wave[0], IndexOf(pool, wave[0].hint);
    ReserveHint(pool, run, x, now);
    var a := Reserved(pool[k], x.task, now);
    forall i | 0 <= i < |wave[1..]| ensures HintFits(pool[k := a], run, wave[1..][i]) {
      OthersStay(pool, run, k, a, wave[i + 1]);
    }
  }

  /** Each task of the wave gets exactly the agent planned for it. */
  lemma {:induction false} WaveGetsHints(pool: Pool, run: RunId, wave: seq<Assignment>, now: int)
    requires Hinted(pool, run, wave)
    ensures ReserveWave(pool, run, wave, now) == Hints(wave)
    decreases |wave|
  {
    if |wave| > 0 {
      HintedRest(pool, run, wave, now);
      ReserveHint(pool, run, wave[0], now);
      var next := ReserveIn(pool, run, wave[0].required, wave[0].task, Some(wave[0].hint), now);
      WaveGetsHints(next, run, wave[1..], now);
      HintsCons(wave);
    }
  }

  lemma {:induction false} HintsCons(wave: seq<Assignment>)
    requires |wave| > 0
    ensures Hints(wave) == [Some(wave[0].hint)] + Hints(wave[1..])
  {}

  lemma {:induction false} OnceIn(s: seq<Assignment>, x: Assignment)
    requires HintsApart(s)
    ensures multiset(s)[x] <= 1
  {
    if |s| > 0 {
      OnceIn(s[1..], x);
      assert s == [s[0]] + s[1..];
    }
  }

  /** Rearranging a wave keeps its hints apart. */
  lemma {:induction false} ApartInAnyOrder(s: seq<Assignment>, t: seq<Assignment>)
    requires HintsApart(s) && multiset(s) == multiset(t)
    ensures HintsApart(t) && forall x :: x in t <==> x in s
  {
    forall x ensures x in t <==> x in s { assert x in multiset(s) <==> x in multiset(t); }
    forall i, j | 0 <= i < j < |t| ensures t[i].hint != t[j].hint {
      assert t[i] in s && t[j] in s;
      OnceIn(s, t[i]);
      TwoPlaces(t, i, j);
    }
  }

  lemma {:induction false} TwoPlaces(t: seq<Assignment>, i: nat, j: nat)
    requires i < j < |t|
    ensures t[i] == t[j] ==> multiset(t)[t[i]] >= 2
  {
    assert t == (t[..i] + [t[i]] + t[i + 1..j]) + ([t[j]] + t[j + 1..]);
  }

  /** The coroutines of a wave run in any order: every order hands out the planned agents. */
  lemma {:induction false} AnyOrderGetsHints(pool: Pool, run: RunId, wave: seq<Assignment>, order: seq<Assignment>, now: int)
    requires Hinted(pool, run, wave) && multiset(order) == multiset(wave)
    ensures ReserveWave(pool, run, order, now) == Hints(order)
  {
    ApartInAnyOrder(wave, order);
    forall i | 0 <= i < |order| ensures HintFits(pool, run, order[i]) {
      assert order[i] in wave;
    }
    WaveGetsHints(pool, run, order, now);
  }
}
