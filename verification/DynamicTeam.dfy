/**
 Teammates created during a run: a child's profile is its parent's permissions and no more, and the team
 stays within its budget.

 The profile a search picks, new agent ids and the verdict of the spawn hook are inputs.
 */
module DynamicTeam {
  import opened Basics

  type ProfileId = string

  datatype Profile = Profile(id: ProfileId, capabilities: set<Capability>, tools: seq<string>,
                             read: bool, write: bool, shell: bool)

  datatype Member = Member(run: RunId, profile: ProfileId, stopped: bool)

  datatype Link = Link(run: RunId, parent: AgentId, depth: nat)

  datatype Budget = Budget(maxTeamSize: int, maxSpawnDepth: int, maxAgentsPerRun: int, allowSpawn: bool, allowNested: bool)

  datatype Team = Team(profiles: map<ProfileId, Profile>, members: map<AgentId, Member>, links: map<AgentId, Link>)

  datatype Refusal = TeamFull | NestedDisabled | SpawnDisabled | ParentNotInRun | TooDeep | NoProfile | ParentProfileMissing | HookBlocked

  datatype Outcome = Spawned(agent: AgentId) | Refused(why: Refusal)

  // ----- Derived ids -----

  predicate Plain(s: string) {
    forall i | 0 <= i < |s| :: s[i] != ':'
  }

  function Derived(profile: ProfileId, parent: AgentId): (id: ProfileId)
    ensures |id| == |profile| + 7 + |parent|
  {
    profile + ":child:" + parent
  }

  /** A derived id tells its parts: what follows the last colon is the parent. */
  lemma {:induction false} DerivedTells(p: ProfileId, a: AgentId, q: ProfileId, b: AgentId)
    requires Plain(a) && Plain(b) && Derived(p, a) == Derived(q, b)
    ensures p == q && a == b
  {
    var s, t := Derived(p, a), Derived(q, b);
    assert s[|p| + 6] == ':' && t[|q| + 6] == ':';
    assert forall k | |p| + 7 <= k < |s| :: s[k] == a[k - |p| - 7];
    assert forall k | |q| + 7 <= k < |t| :: t[k] == b[k - |q| - 7];
    assert p == s[..|p|] && q == t[..|q|];
    assert a == s[|p| + 7..] && b == t[|q| + 7..];
  }

  lemma {:induction false} DerivedIsNotPlain(p: ProfileId, a: AgentId)
    ensures !Plain(Derived(p, a))
  {
    assert Derived(p, a)[|p|] == ':';
  }

  // ----- Spawning -----

  function Shared(tools: seq<string>, parent: seq<string>): (s: seq<string>)
    ensures forall t :: t in s <==> t in tools && t in parent
  {
    if |tools| == 0 then []
    else if tools[0] in parent then [tools[0]] + Shared(tools[1..], parent)
    else Shared(tools[1..], parent)
  }

  function Restrict(p: Profile, parent: Profile, agent: AgentId): Profile {
    Profile(Derived(p.id, agent), p.capabilities, Shared(p.tools, parent.tools),
            p.read && parent.read, p.write && parent.write, p.shell && parent.shell)
  }

  function Size(members: map<AgentId, Member>, run: RunId): nat {
    |InRun(members, run)|
  }

  function InRun(members: map<AgentId, Member>, run: RunId): set<AgentId> {
    set a | a in members && members[a].run == run
  }

  function Limit(b: Budget): int {
    if b.maxTeamSize < b.maxAgentsPerRun then b.maxTeamSize else b.maxAgentsPerRun
  }

  function Depth(links: map<AgentId, Link>, a: AgentId): nat {
    if a in links then links[a].depth else 0
  }

  /** best is what the search for a worker answers; agent is the new id. */
  datatype Request = Request(run: RunId, parent: Option<AgentId>, best: Option<ProfileId>, agent: AgentId, blocked: bool)

  function Check(b: Budget, t: Team, r: Request): Option<Refusal> {
    if Size(t.members, r.run) >= Limit(b) then Some(TeamFull)
    else if r.parent.Some? then
      var p := r.parent.value;
      if !b.allowNested then Some(NestedDisabled)
      else if p !in t.members || t.members[p].run != r.run then Some(ParentNotInRun)
      else if Depth(t.links, p) + 1 > b.maxSpawnDepth then Some(TooDeep)
      else if r.best.None? || r.best.value !in t.profiles then Some(NoProfile)
      else if t.members[p].profile !in t.profiles then Some(ParentProfileMissing)
      else None
    else if !b.allowSpawn then Some(SpawnDisabled)
    else if r.best.None? || r.best.value !in t.profiles then Some(NoProfile)
    else None
  }

  /** The profile the new agent works under. */
  function Granted(t: Team, r: Request): Profile
    requires r.best.Some? && r.best.value in t.profiles
    requires r.parent.Some? ==> r.parent.value in t.members && t.members[r.parent.value].profile in t.profiles
  {
    var best := t.profiles[r.best.value];
    if r.parent.Some? then Restrict(best, t.profiles[t.members[r.parent.value].profile], r.parent.value) else best
  }

  /** An agent the hook blocks has joined already; it is stopped. */
  function Spawn(b: Budget, t: Team, r: Request): (Team, Outcome) {
    var refusal := Check(b, t, r);
    if refusal.Some? then (t, Refused(refusal.value))
    else
      var p := Granted(t, r);
      (Team(if r.parent.Some? then t.profiles[p.id := p] else t.profiles,
            t.members[r.agent := Member(r.run, p.id, r.blocked)],
            if r.parent.Some? then t.links[r.agent := Link(r.run, r.parent.value, Depth(t.links, r.parent.value) + 1)]
            else t.links),
       if r.blocked then Refused(HookBlocked) else Spawned(r.agent))
  }

  // ----- Runs -----

  datatype Event =
    | Ask(request: Request)
    | Join(agent: AgentId, run: RunId, profile: ProfileId)

  /** New agents have fresh plain ids. */
  ghost predicate Enabled(t: Team, e: Event) {
    match e
    case Ask(r) => r.agent !in t.members && r.agent !in t.links && Plain(r.agent) && r.parent != Some(r.agent)
    case Join(a, _, _) => a !in t.members && a !in t.links && Plain(a)
  }

  function Step(b: Budget, t: Team, e: Event): Team {
    match e
    case Ask(r) => Spawn(b, t, r).0
    case Join(a, run, profile) => t.(members := t.members[a := Member(run, profile, false)])
  }

  /** A profile that is not one of the plain ones is its source restricted to its parent's. */
  ghost predicate Restricted(t: Team, id: ProfileId)
    requires id in t.profiles
  {
    exists p, a {:trigger Derived(p, a)} :: id == Derived(p, a) && Plain(a) && p in t.profiles && a in t.members
            && t.members[a].profile in t.profiles
            && t.profiles[id] == Restrict(t.profiles[p], t.profiles[t.members[a].profile], a)
  }

  ghost predicate ProfilesOk(t: Team) {
    forall id | id in t.profiles :: t.profiles[id].id == id && (Plain(id) || Restricted(t, id))
  }

  /** Permissions of the first are among those of the second. */
  predicate Within(p: Profile, q: Profile) {
    && (forall x | x in p.tools :: x in q.tools)
    && (p.read ==> q.read) && (p.write ==> q.write) && (p.shell ==> q.shell)
  }

  ghost predicate LinkOk(b: Budget, t: Team, c: AgentId)
    requires c in t.links
  {
    var p := t.links[c].parent;
    && c in t.members && p in t.members && t.members[c].run == t.members[p].run == t.links[c].run
    && t.links[c].depth == Depth(t.links, p) + 1 && t.links[c].depth <= b.maxSpawnDepth
    && t.members[c].profile in t.profiles && t.members[p].profile in t.profiles
    && Within(t.profiles[t.members[c].profile], t.profiles[t.members[p].profile])
  }

  ghost predicate LinksOk(b: Budget, t: Team) {
    forall c | c in t.links :: LinkOk(b, t, c)
  }

  ghost predicate Inv(b: Budget, t: Team) {
    ProfilesOk(t) && LinksOk(b, t) && forall a | a in t.members :: Plain(a)
  }

  /** Profiles, members and links that are there stay as they are. */
  ghost predicate Stays(t: Team, next: Team) {
    && (forall id | id in t.profiles :: id in next.profiles && next.profiles[id] == t.profiles[id])
    && (forall a | a in t.members :: a in next.members && next.members[a] == t.members[a])
    && forall c | c in t.links :: c in next.links && next.links[c] == t.links[c]
  }

  /** Spawning under the same derived id again registers the same profile. */
  lemma {:induction false} SameAgain(t: Team, r: Request)
    requires ProfilesOk(t) && r.parent.Some? && r.best.Some? && r.best.value in t.profiles
    requires r.parent.value in t.members && t.members[r.parent.value].profile in t.profiles && Plain(r.parent.value)
    requires Granted(t, r).id in t.profiles
    ensures t.profiles[Granted(t, r).id] == Granted(t, r)
  {
    var id := Granted(t, r).id;
    assert t.profiles[r.best.value].id == r.best.value;
    DerivedIsNotPlain(r.best.value, r.parent.value);
    var p, a :| id == Derived(p, a) && Plain(a) && p in t.profiles && a in t.members
                && t.members[a].profile in t.profiles
                && t.profiles[id] == Restrict(t.profiles[p], t.profiles[t.members[a].profile], a);
    DerivedTells(p, a, r.best.value, r.parent.value);
  }

  lemma {:induction false} StepStays(b: Budget, t: Team, e: Event)
    requires Inv(b, t) && Enabled(t, e)
    ensures Stays(t, Step(b, t, e))
  {
    if e.Ask? && Check(b, t, e.request).None? && e.request.parent.Some? {
      if Granted(t, e.request).id in t.profiles { SameAgain(t, e.request); }
    }
  }

  lemma {:induction false} RestrictedStays(t: Team, next: Team, id: ProfileId)
    requires Stays(t, next) && id in t.profiles && Restricted(t, id)
    ensures Restricted(next, id)
  {
    var p, a :| id == Derived(p, a) && Plain(a) && p in t.profiles && a in t.members
                && t.members[a].profile in t.profiles
                && t.profiles[id] == Restrict(t.profiles[p], t.profiles[t.members[a].profile], a);
    assert next.profiles[id] == Restrict(next.profiles[p], next.profiles[next.members[a].profile], a);
  }

  lemma {:induction false} StepProfiles(b: Budget, t: Team, e: Event)
    requires Inv(b, t) && Enabled(t, e)
    ensures ProfilesOk(Step(b, t, e))
  {
    var next := Step(b, t, e);
    StepStays(b, t, e);
    forall id | id in next.profiles ensures next.profiles[id].id == id && (Plain(id) || Restricted(next, id)) {
      if id in t.profiles {
        if !Plain(id) { RestrictedStays(t, next, id); }
      } else {
        var r := e.request;
        assert t.profiles[r.best.value].id == r.best.value;
        assert id == Derived(r.best.value, r.parent.value);
        assert Restricted(next, id);
      }
    }
  }

  lemma {:induction false} LinkStays(b: Budget, t: Team, next: Team, c: AgentId)
    requires Stays(t, next) && c in t.links && LinkOk(b, t, c)
    requires t.links[c].parent in next.links ==> t.links[c].parent in t.links
    ensures c in next.links && LinkOk(b, next, c)
  {}

  lemma {:induction false} StepLinks(b: Budget, t: Team, e: Event)
    requires Inv(b, t) && Enabled(t, e)
    ensures LinksOk(b, Step(b, t, e))
  {
    var next := Step(b, t, e);
    StepStays(b, t, e);
    forall c | c in next.links ensures LinkOk(b, next, c) {
      if c in t.links {
        assert t.links[c].parent in t.members;
        LinkStays(b, t, next, c);
      } else {
        var r := e.request;
        var parent := t.profiles[t.members[r.parent.value].profile];
        assert Within(Granted(t, r), parent);
      }
    }
  }

  lemma {:induction false} StepKeeps(b: Budget, t: Team, e: Event)
    requires Inv(b, t) && Enabled(t, e)
    ensures Inv(b, Step(b, t, e)) && Stays(t, Step(b, t, e))
  {
    StepProfiles(b, t, e);
    StepLinks(b, t, e);
    StepStays(b, t, e);
  }

  function Run(b: Budget, t: Team, events: seq<Event>, n: nat): Team
    requires n <= |events|
  {
    if n == 0 then t else Step(b, Run(b, t, events, n - 1), events[n - 1])
  }

  ghost predicate EnabledAt(b: Budget, t: Team, events: seq<Event>, i: nat) {
    i < |events| && Enabled(Run(b, t, events, i), events[i])
  }

  ghost predicate Enabling(b: Budget, t: Team, events: seq<Event>) {
    forall i: nat | i < |events| :: EnabledAt(b, t, events, i)
  }

  /** A team before any spawn: base profiles with plain ids and no links. */
  ghost predicate Fresh(t: Team) {
    && (forall id | id in t.profiles :: t.profiles[id].id == id && Plain(id))
    && t.links == map[] && forall a | a in t.members :: Plain(a)
  }

  lemma {:induction false} RunKeeps(b: Budget, t: Team, events: seq<Event>, n: nat)
    requires n <= |events| && Fresh(t) && Enabling(b, t, events)
    ensures Inv(b, Run(b, t, events, n))
  {
    if n > 0 {
      RunKeeps(b, t, events, n - 1);
      assert EnabledAt(b, t, events, n - 1);
      StepKeeps(b, Run(b, t, events, n - 1), events[n - 1]);
    }
  }

  /** A profile, once registered, is the same for the rest of the run: what stands under a derived id
      depends on that id alone. */
  lemma {:induction false} ProfilesAreFixed(b: Budget, t: Team, events: seq<Event>, m: nat, n: nat)
    requires m <= n <= |events| && Fresh(t) && Enabling(b, t, events)
    ensures Stays(Run(b, t, events, m), Run(b, t, events, n))
    decreases n
  {
    if m < n {
      ProfilesAreFixed(b, t, events, m, n - 1);
      RunKeeps(b, t, events, n - 1);
      assert EnabledAt(b, t, events, n - 1);
      StepKeeps(b, Run(b, t, events, n - 1), events[n - 1]);
    }
  }

  /** Every agent of the chain after the first is linked to the one before it. */
  ghost predicate Chain(t: Team, chain: seq<AgentId>) {
    |chain| > 0 && forall i | 0 < i < |chain| :: chain[i] in t.links && t.links[chain[i]].parent == chain[i - 1]
  }

  predicate Works(t: Team, a: AgentId) {
    a in t.members && t.members[a].profile in t.profiles
  }

  /** Along every chain of spawns permissions only shrink and the depth grows by one each time. */
  lemma {:induction false} ChainShrinks(b: Budget, t: Team, chain: seq<AgentId>, i: nat, j: nat)
    requires Inv(b, t) && Chain(t, chain) && i < j < |chain|
    ensures Works(t, chain[i]) && Works(t, chain[j])
    ensures Within(t.profiles[t.members[chain[j]].profile], t.profiles[t.members[chain[i]].profile])
    ensures Depth(t.links, chain[j]) == Depth(t.links, chain[i]) + (j - i) && Depth(t.links, chain[j]) <= b.maxSpawnDepth
    decreases j - i
  {
    assert LinkOk(b, t, chain[j]);
    if i + 1 < j { ChainShrinks(b, t, chain, i, j - 1); }
  }

  /** In every team a run reaches permissions shrink along chains, within the depth allowed. */
  lemma {:induction false} SpawnTreeIsSafe(b: Budget, t: Team, events: seq<Event>, chain: seq<AgentId>)
    requires Fresh(t) && Enabling(b, t, events) && Chain(Run(b, t, events, |events|), chain) && |chain| > 1
    ensures var u := Run(b, t, events, |events|);
            var first, last := chain[0], chain[|chain| - 1];
            && Works(u, first) && Works(u, last)
            && Within(u.profiles[u.members[last].profile], u.profiles[u.members[first].profile])
            && |chain| - 1 <= b.maxSpawnDepth
  {
    RunKeeps(b, t, events, |events|);
    ChainShrinks(b, Run(b, t, events, |events|), chain, 0, |chain| - 1);
  }

  // ----- The budget -----

  lemma {:induction false} SizeAfter(members: map<AgentId, Member>, a: AgentId, m: Member, run: RunId)
    requires a !in members
    ensures Size(members[a := m], run) == Size(members, run) + if m.run == run then 1 else 0
  {
    assert InRun(members[a := m], run) == if m.run == run then InRun(members, run) + {a} else InRun(members, run);
  }

  /** A spawn that adds an agent leaves the team within both limits; the team of another run is untouched. */
  lemma {:induction false} SpawnKeepsBudget(b: Budget, t: Team, e: Event, run: RunId)
    requires Enabled(t, e) && e.Ask?
    ensures var before, after := Size(t.members, run), Size(Step(b, t, e).members, run);
            after == before || (after == before + 1 && run == e.request.run && after <= Limit(b))
  {
    var r := e.request;
    if Check(b, t, r).None? { SizeAfter(t.members, r.agent, Member(r.run, Granted(t, r).id, r.blocked), run); }
  }

  /** By spawning alone no team ever exceeds the smaller of its two limits. */
  lemma {:induction false} BudgetOverRuns(b: Budget, t: Team, events: seq<Event>, n: nat, run: RunId)
    requires n <= |events| && Enabling(b, t, events) && forall i | 0 <= i < |events| :: events[i].Ask?
    ensures Size(Run(b, t, events, n).members, run) <= Size(t.members, run) || Size(Run(b, t, events, n).members, run) <= Limit(b)
  {
    if n > 0 {
      BudgetOverRuns(b, t, events, n - 1, run);
      assert EnabledAt(b, t, events, n - 1);
      SpawnKeepsBudget(b, Run(b, t, events, n - 1), events[n - 1], run);
    }
  }

  // ----- The manager as an object -----

  class DynamicTeamManager {
    const budget: Budget
    var profiles: map<ProfileId, Profile>
    var members: map<AgentId, Member>
    var links: map<AgentId, Link>

    ghost function View(): Team
      reads this
    {
      Team(profiles, members, links)
    }

    constructor (budget: Budget, profiles: map<ProfileId, Profile>)
      ensures this.budget == budget && View() == Team(profiles, map[], map[])
    {
      this.budget, this.profiles, members, links := budget, profiles, map[], map[];
    }

    method SpawnAgent(r: Request) returns (outcome: Outcome)
      modifies this`profiles, this`members, this`links
      ensures (View(), outcome) == Spawn(budget, old(View()), r)
    {
      if Size(members, r.run) >= Limit(budget) { return Refused(TeamFull); }
      var depth := 0;
      if r.parent.Some? {
        if !budget.allowNested { return Refused(NestedDisabled); }
        if r.parent.value !in members || members[r.parent.value].run != r.run { return Refused(ParentNotInRun); }
        depth := (if r.parent.value in links then links[r.parent.value].depth else 0) + 1;
        if depth > budget.maxSpawnDepth { return Refused(TooDeep); }
      } else if !budget.allowSpawn {
        return Refused(SpawnDisabled);
      }
      if r.best.None? || r.best.value !in profiles { return Refused(NoProfile); }
      var profile := profiles[r.best.value];
      if r.parent.Some? {
        if members[r.parent.value].profile !in profiles { return Refused(ParentProfileMissing); }
        profile := Restrict(profile, profiles[members[r.parent.value].profile], r.parent.value);
        profiles := profiles[profile.id := profile];
      }
      members := members[r.agent := Member(r.run, profile.id, false)];
      if r.parent.Some? { links := links[r.agent := Link(r.run, r.parent.value, depth)]; }
      if r.blocked {
        members := members[r.agent := members[r.agent].(stopped := true)];
        assert members == old(members)[r.agent := Member(r.run, profile.id, true)];
        return Refused(HookBlocked);
      }
      return Spawned(r.agent);
    }
  }
}
