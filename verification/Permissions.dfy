/**
 The permission broker: stored requests, decisions by people, and grants that are good once or for a run.

 Ids, the clock and the verdict of the request hook are inputs.
 */
module Permissions {
  import opened Basics
  import opened Sorting

  type RequestId = string
  type Fingerprint = string
  type Kind = string

  datatype Status = Pending | Approved | Denied

  datatype Decision = ApproveOnce | ApproveForRun | Deny | DenyWithFeedback

  /** What an agent asks to do; the fingerprint stands for kind, operation and parameters. */
  datatype Action = Action(run: RunId, agent: AgentId, kind: Kind, digest: Fingerprint)

  datatype Request = Request(id: RequestId, action: Action, status: Status, decision: Option<Decision>,
                             createdAt: int, usedAt: Option<int>)

  type Table = seq<Request>

  datatype Policy = Policy(allowed: set<Kind>, denied: set<Kind>, requestByDefault: bool)

  datatype PolicyOutcome = Allow | Ask | Refuse

  function Evaluate(p: Policy, kind: Kind): PolicyOutcome {
    if kind in p.denied then Refuse
    else if kind in p.allowed then Allow
    else if p.requestByDefault then Ask else Refuse
  }

  /** The answer to an authorization: yes by policy, yes by a grant, or one of the two errors. */
  datatype Answer = ByPolicy | ByGrant(id: RequestId) | PermissionDenied | PermissionRequired(id: RequestId)

  // ----- Grants -----

  /** Position of the request with this id, or |t|. */
  function IndexOf(t: Table, id: RequestId): (k: nat)
    ensures k <= |t| && (k < |t| ==> t[k].id == id)
  {
    IndexWhere(t, (x: Request) => x.id == id)
  }

  lemma {:induction false} IndexOfIsFirst(t: Table, id: RequestId)
    ensures forall i | 0 <= i < IndexOf(t, id) :: t[i].id != id
  {
    IndexWhereIsFirst(t, (x: Request) => x.id == id);
  }

  predicate Matches(r: Request, a: Action) {
    r.action.run == a.run && r.action.agent == a.agent && r.action.digest == a.digest && r.status == Approved
  }

  predicate Usable(r: Request) {
    r.decision == Some(ApproveForRun) || r.usedAt.None?
  }

  /** The matching rows among the first n. */
  function Rows(t: Table, n: nat, a: Action): seq<Request>
    requires n <= |t|
  {
    if n == 0 then []
    else if Matches(t[n - 1], a) then Rows(t, n - 1, a) + [t[n - 1]]
    else Rows(t, n - 1, a)
  }

  predicate Newer(a: Request, b: Request) {
    a.createdAt >= b.createdAt
  }

  function FirstUsable(rows: seq<Request>): Option<Request> {
    if |rows| == 0 then None else if Usable(rows[0]) then Some(rows[0]) else FirstUsable(rows[1..])
  }

  /** The newest approved request for the action that is good for the run or not used yet. */
  function Grant(t: Table, a: Action): Option<Request> {
    FirstUsable(Sort(Newer, Rows(t, |t|, a)))
  }

  lemma {:induction false} RowsHas(t: Table, n: nat, a: Action, r: Request)
    requires n <= |t|
    ensures r in Rows(t, n, a) <==> Matches(r, a) && exists i :: 0 <= i < n && t[i] == r
  {
    if n > 0 { RowsHas(t, n - 1, a, r); }
  }

  lemma {:induction false} FirstUsableIs(rows: seq<Request>)
    requires Sorted(Newer, rows)
    ensures FirstUsable(rows).None? ==> forall r | r in rows :: !Usable(r)
    ensures var g := FirstUsable(rows);
            g.Some? ==> g.value in rows && Usable(g.value) && forall r | r in rows && Usable(r) :: Newer(g.value, r)
  {
    if |rows| > 0 && !Usable(rows[0]) {
      FirstUsableIs(rows[1..]);
    }
  }

  lemma {:induction false} GrantIs(t: Table, a: Action)
    ensures Grant(t, a).Some? ==> Grant(t, a).value in t && Matches(Grant(t, a).value, a) && Usable(Grant(t, a).value)
    ensures Grant(t, a).Some? ==> forall r | r in t && Matches(r, a) && Usable(r) :: Newer(Grant(t, a).value, r)
    ensures Grant(t, a).None? ==> forall r | r in t && Matches(r, a) :: !Usable(r)
  {
    var rows := Rows(t, |t|, a);
    var sorted := Sort(Newer, rows);
    SortIs(Newer, rows);
    FirstUsableIs(sorted);
    forall r ensures r in sorted <==> r in t && Matches(r, a) {
      RowsHas(t, |t|, a, r);
      assert r in multiset(sorted) <==> r in multiset(rows);
    }
  }

  // ----- Operations -----

  /** An id that is taken leaves the table as it is. */
  function Inserted(t: Table, r: Request): Table {
    if IndexOf(t, r.id) < |t| then t else t + [r]
  }

  function Update(t: Table, r: Request): Table {
    var k := IndexOf(t, r.id);
    if k < |t| then t[k := r] else t
  }

  /** A new request; the hook may refuse it at once, never approve it. */
  function Asked(a: Action, id: RequestId, now: int, blocked: bool): Request {
    if blocked then Request(id, a, Denied, Some(DenyWithFeedback), now, None)
    else Request(id, a, Pending, None, now, None)
  }

  function Requested(t: Table, a: Action, id: RequestId, now: int, blocked: bool): Table {
    var inserted := Inserted(t, Asked(a, id, now, false));
    if blocked then Update(inserted, Asked(a, id, now, true)) else inserted
  }

  function Authorized(p: Policy, t: Table, a: Action, id: RequestId, now: int, blocked: bool): (Table, Answer) {
    var g := Grant(t, a);
    if g.Some? then
      (if g.value.decision == Some(ApproveOnce) then Update(t, g.value.(usedAt := Some(now))) else t, ByGrant(g.value.id))
    else
      match Evaluate(p, a.kind)
      case Allow => (t, ByPolicy)
      case Refuse => (t, PermissionDenied)
      case Ask => (Requested(t, a, id, now, blocked), if blocked then PermissionDenied else PermissionRequired(id))
  }

  /** Only people and the governed lead decide. */
  predicate Principal(who: string) {
    who == "user" || who == "lead" || "user:" <= who || "lead:" <= who
  }

  function StatusOf(d: Decision): Status {
    if d in {ApproveOnce, ApproveForRun} then Approved else Denied
  }

  function Decided(t: Table, id: RequestId, d: Decision, who: string): Table {
    var k := IndexOf(t, id);
    if !Principal(who) || k == |t| || t[k].status != Pending then t
    else t[k := t[k].(status := StatusOf(d), decision := Some(d))]
  }

  // ----- Histories -----

  /** A yes that was given, and what it rested on. */
  datatype Yes = Yes(action: Action, backing: Option<RequestId>)

  datatype World = World(table: Table, given: seq<Yes>)

  datatype Event =
    | Authorize(action: Action, id: RequestId, now: int, blocked: bool)
    | MakeRequest(action: Action, id: RequestId, now: int, blocked: bool)
    | Decide(id: RequestId, decision: Decision, who: string)

  function Step(p: Policy, w: World, e: Event): World {
    match e
    case Authorize(a, id, now, blocked) =>
      var (table, answer) := Authorized(p, w.table, a, id, now, blocked);
      World(table, if answer.ByGrant? then w.given + [Yes(a, Some(answer.id))]
                   else if answer.ByPolicy? then w.given + [Yes(a, None)] else w.given)
    case MakeRequest(a, id, now, blocked) => w.(table := Requested(w.table, a, id, now, blocked))
    case Decide(id, d, who) => w.(table := Decided(w.table, id, d, who))
  }

  /** Ids of new requests are fresh. */
  ghost predicate Enabled(w: World, e: Event) {
    !e.Decide? ==> forall i | 0 <= i < |w.table| :: w.table[i].id != e.id
  }

  ghost predicate RowOk(r: Request) {
    match r.status
    case Pending => r.decision.None? && r.usedAt.None?
    case Approved => r.decision in {Some(ApproveOnce), Some(ApproveForRun)}
    case Denied => r.decision in {Some(Deny), Some(DenyWithFeedback)}
  }

  ghost predicate TableOk(t: Table) {
    && (forall i | 0 <= i < |t| :: RowOk(t[i]))
    && forall i, j | 0 <= i < j < |t| :: t[i].id != t[j].id
  }

  /** A yes rests on the policy, or on an approved request for the same run, agent and fingerprint. */
  ghost predicate Backed(p: Policy, t: Table, y: Yes) {
    if y.backing.None? then Evaluate(p, y.action.kind) == Allow
    else
      var k := IndexOf(t, y.backing.value);
      && k < |t| && Matches(t[k], y.action)
      && (t[k].decision == Some(ApproveOnce) ==> t[k].usedAt.Some?)
  }

  /** Two answers that rest on one request rest on one that is good for the run. */
  ghost predicate OnceEach(t: Table, given: seq<Yes>) {
    forall i, j | 0 <= i < j < |given| && given[i].backing.Some? && given[i].backing == given[j].backing ::
      var k := IndexOf(t, given[i].backing.value);
      k < |t| && t[k].decision == Some(ApproveForRun)
  }

  ghost predicate Inv(p: Policy, w: World) {
    && TableOk(w.table)
    && (forall i | 0 <= i < |w.given| :: Backed(p, w.table, w.given[i]))
    && OnceEach(w.table, w.given)
  }

  /** Rows stay where they are; one that is decided keeps its action, status and decision, and a use is
      not forgotten. */
  ghost predicate RowsStay(t: Table, next: Table) {
    && |t| <= |next|
    && (forall i | 0 <= i < |t| :: t[i].id == next[i].id && t[i].action == next[i].action)
    && (forall i | 0 <= i < |t| && t[i].status != Pending :: next[i].status == t[i].status && next[i].decision == t[i].decision)
    && forall i | 0 <= i < |t| && t[i].usedAt.Some? :: next[i].usedAt.Some?
  }

  lemma {:induction false} PlaceStays(t: Table, next: Table, id: RequestId)
    requires RowsStay(t, next) && IndexOf(t, id) < |t|
    ensures IndexOf(next, id) == IndexOf(t, id)
  {
    IndexOfIsFirst(t, id);
    IndexOfIsFirst(next, id);
    assert next[IndexOf(t, id)].id == id;
  }

  lemma {:induction false} BackedStays(p: Policy, t: Table, next: Table, y: Yes)
    requires RowsStay(t, next) && Backed(p, t, y)
    ensures Backed(p, next, y)
  {
    if y.backing.Some? { PlaceStays(t, next, y.backing.value); }
  }

  lemma {:induction false} GivenStay(p: Policy, w: World, next: World)
    requires Inv(p, w) && RowsStay(w.table, next.table) && TableOk(next.table) && next.given == w.given
    ensures Inv(p, next)
  {
    forall i | 0 <= i < |w.given| ensures Backed(p, next.table, w.given[i]) {
      BackedStays(p, w.table, next.table, w.given[i]);
    }
    forall i, j | 0 <= i < j < |w.given| && w.given[i].backing.Some? && w.given[i].backing == w.given[j].backing
      ensures var k := IndexOf(next.table, w.given[i].backing.value);
              k < |next.table| && next.table[k].decision == Some(ApproveForRun)
    {
      PlaceStays(w.table, next.table, w.given[i].backing.value);
    }
  }

  lemma {:induction false} RequestKeeps(t: Table, a: Action, id: RequestId, now: int, blocked: bool)
    requires TableOk(t) && forall i | 0 <= i < |t| :: t[i].id != id
    ensures TableOk(Requested(t, a, id, now, blocked)) && RowsStay(t, Requested(t, a, id, now, blocked))
  {
    assert IndexOf(t, id) == |t|;
    var r, more := Asked(a, id, now, false), t + [Asked(a, id, now, false)];
    IndexOfIsFirst(more, id);
    assert more[|t|].id == id;
    assert IndexOf(more, id) == |t|;
    assert Requested(t, a, id, now, blocked) == t + [Asked(a, id, now, blocked)];
  }

  lemma {:induction false} DecideKeeps(t: Table, id: RequestId, d: Decision, who: string)
    requires TableOk(t)
    ensures TableOk(Decided(t, id, d, who)) && RowsStay(t, Decided(t, id, d, who))
  {}

  /** The grant's own place in the table. */
  lemma {:induction false} GrantPlace(t: Table, a: Action) returns (k: nat)
    requires TableOk(t) && Grant(t, a).Some?
    ensures k < |t| && t[k] == Grant(t, a).value && IndexOf(t, t[k].id) == k && Matches(t[k], a) && Usable(t[k])
  {
    GrantIs(t, a);
    k :| k < |t| && t[k] == Grant(t, a).value;
    IndexOfIsFirst(t, t[k].id);
  }

  /** The table once a grant has been used. */
  function Used(t: Table, k: nat, now: int): Table
    requires k < |t|
  {
    if t[k].decision == Some(ApproveOnce) then t[k := t[k].(usedAt := Some(now))] else t
  }

  lemma {:induction false} UsedStays(t: Table, k: nat, now: int)
    requires TableOk(t) && k < |t| && t[k].status == Approved
    ensures TableOk(Used(t, k, now)) && RowsStay(t, Used(t, k, now))
  {
    assert RowOk(t[k]);
  }

  lemma {:induction false} UseKeeps(p: Policy, w: World, a: Action, now: int, k: nat)
    requires Inv(p, w) && k < |w.table| && IndexOf(w.table, w.table[k].id) == k && Matches(w.table[k], a) && Usable(w.table[k])
    ensures Inv(p, World(Used(w.table, k, now), w.given + [Yes(a, Some(w.table[k].id))]))
  {
    var t, y := Used(w.table, k, now), Yes(a, Some(w.table[k].id));
    UsedStays(w.table, k, now);
    GivenStay(p, w, World(t, w.given));
    PlaceStays(w.table, t, w.table[k].id);
    if w.table[k].decision == Some(ApproveOnce) { UnusedBacksNone(p, w, k); }
    OnceMore(t, w.given, y, k);
  }

  /** A request approved once and not used yet backs no answer. */
  lemma {:induction false} UnusedBacksNone(p: Policy, w: World, k: nat)
    requires Inv(p, w) && k < |w.table| && IndexOf(w.table, w.table[k].id) == k
    requires w.table[k].decision == Some(ApproveOnce) && w.table[k].usedAt.None?
    ensures forall i | 0 <= i < |w.given| :: w.given[i].backing != Some(w.table[k].id)
  {
    forall i | 0 <= i < |w.given| ensures w.given[i].backing != Some(w.table[k].id) {
      assert Backed(p, w.table, w.given[i]);
    }
  }

  lemma {:induction false} OnceMore(t: Table, given: seq<Yes>, y: Yes, k: nat)
    requires OnceEach(t, given) && y.backing.Some? && k < |t| && IndexOf(t, y.backing.value) == k
    requires t[k].decision == Some(ApproveForRun) || forall i | 0 <= i < |given| :: given[i].backing != y.backing
    ensures OnceEach(t, given + [y])
  {}

  lemma {:induction false} GrantedKeeps(p: Policy, w: World, e: Event)
    requires Inv(p, w) && e.Authorize? && Grant(w.table, e.action).Some?
    ensures Inv(p, Step(p, w, e))
  {
    var k := GrantPlace(w.table, e.action);
    UseKeeps(p, w, e.action, e.now, k);
  }

  lemma {:induction false} UngrantedKeeps(p: Policy, w: World, e: Event)
    requires Inv(p, w) && Enabled(w, e) && e.Authorize? && Grant(w.table, e.action).None?
    ensures Inv(p, Step(p, w, e))
  {
    match Evaluate(p, e.action.kind)
    case Allow => PolicyYes(p, w, e.action);
    case Refuse =>
    case Ask =>
      RequestKeeps(w.table, e.action, e.id, e.now, e.blocked);
      GivenStay(p, w, World(Requested(w.table, e.action, e.id, e.now, e.blocked), w.given));
  }

  lemma {:induction false} PolicyYes(p: Policy, w: World, a: Action)
    requires Inv(p, w) && Evaluate(p, a.kind) == Allow
    ensures Inv(p, World(w.table, w.given + [Yes(a, None)]))
  {}

  lemma {:induction false} StepKeeps(p: Policy, w: World, e: Event)
    requires Inv(p, w) && Enabled(w, e)
    ensures Inv(p, Step(p, w, e))
  {
    match e
    case Authorize(a, id, now, blocked) =>
      if Grant(w.table, a).Some? { GrantedKeeps(p, w, e); } else { UngrantedKeeps(p, w, e); }
    case MakeRequest(a, id, now, blocked) =>
      RequestKeeps(w.table, a, id, now, blocked);
      GivenStay(p, w, Step(p, w, e));
    case Decide(id, d, who) =>
      DecideKeeps(w.table, id, d, who);
      GivenStay(p, w, Step(p, w, e));
  }

  /** A decided request never changes its status or decision, and no row is lost. */
  lemma {:induction false} DecisionsAreFinal(p: Policy, w: World, e: Event)
    requires TableOk(w.table) && Enabled(w, e)
    ensures RowsStay(w.table, Step(p, w, e).table)
  {
    match e
    case Authorize(a, id, now, blocked) =>
      if Grant(w.table, a).Some? {
        var k := GrantPlace(w.table, a);
      } else {
        RequestKeeps(w.table, a, id, now, blocked);
      }
    case MakeRequest(a, id, now, blocked) => RequestKeeps(w.table, a, id, now, blocked);
    case Decide(id, d, who) => DecideKeeps(w.table, id, d, who);
  }

  function Run(p: Policy, events: seq<Event>, n: nat): World
    requires n <= |events|
  {
    if n == 0 then World([], []) else Step(p, Run(p, events, n - 1), events[n - 1])
  }

  ghost predicate EnabledAt(p: Policy, events: seq<Event>, i: nat) {
    i < |events| && Enabled(Run(p, events, i), events[i])
  }

  lemma {:induction false} RunKeeps(p: Policy, events: seq<Event>, n: nat)
    requires n <= |events| && forall i: nat | i < |events| :: EnabledAt(p, events, i)
    ensures Inv(p, Run(p, events, n))
  {
    if n > 0 {
      RunKeeps(p, events, n - 1);
      assert EnabledAt(p, events, n - 1);
      StepKeeps(p, Run(p, events, n - 1), events[n - 1]);
    }
  }

  /** Over every history with fresh ids: each yes is allowed by the policy or backed by an approved request
      of the same run, agent and fingerprint; an approve-once request backs one yes at most. */
  lemma {:induction false} GrantsAccounted(p: Policy, events: seq<Event>, n: nat)
    requires n <= |events| && forall i: nat | i < |events| :: EnabledAt(p, events, i)
    ensures var w := Run(p, events, n);
            && (forall i | 0 <= i < |w.given| :: Backed(p, w.table, w.given[i]))
            && OnceEach(w.table, w.given) && TableOk(w.table)
  {
    RunKeeps(p, events, n);
  }

  lemma {:induction false} RowsStayOn(a: Table, b: Table, c: Table)
    requires RowsStay(a, b) && RowsStay(b, c)
    ensures RowsStay(a, c)
  {}

  lemma {:induction false} OneStepStays(p: Policy, events: seq<Event>, n: nat)
    requires n < |events| && forall i: nat | i < |events| :: EnabledAt(p, events, i)
    ensures RowsStay(Run(p, events, n).table, Run(p, events, n + 1).table)
  {
    RunKeeps(p, events, n);
    assert EnabledAt(p, events, n);
    DecisionsAreFinal(p, Run(p, events, n), events[n]);
  }

  /** Through any stretch of such a history decided requests stay as they were decided. */
  lemma {:induction false} DecisionsStay(p: Policy, events: seq<Event>, m: nat, n: nat)
    requires m <= n <= |events| && forall i: nat | i < |events| :: EnabledAt(p, events, i)
    ensures RowsStay(Run(p, events, m).table, Run(p, events, n).table)
    decreases n
  {
    if m < n {
      var k := n - 1;
      DecisionsStay(p, events, m, k);
      OneStepStays(p, events, k);
      RowsStayOn(Run(p, events, m).table, Run(p, events, k).table, Run(p, events, k + 1).table);
    }
  }

  // ----- The broker as an object -----

  class PermissionBroker {
    const policy: Policy
    var table: Table

    constructor (policy: Policy)
      ensures this.policy == policy && table == []
    {
      this.policy, table := policy, [];
    }

    method MatchingGrant(a: Action) returns (grant: Option<Request>)
      ensures grant == Grant(table, a)
    {
      var rows := Sort(Newer, Rows(table, |table|, a));
      assert rows[0..] == rows;
      for i := 0 to |rows|
        invariant FirstUsable(rows) == FirstUsable(rows[i..])
      {
        if rows[i].decision == Some(ApproveForRun) || rows[i].usedAt.None? {
          return Some(rows[i]);
        }
      }
      return None;
    }

    method MarkUsed(id: RequestId, now: int)
      modifies this`table
      ensures var k := IndexOf(old(table), id);
              table == if k < |old(table)| then old(table)[k := old(table)[k].(usedAt := Some(now))] else old(table)
    {
      var k := IndexOf(table, id);
      if k < |table| { table := table[k := table[k].(usedAt := Some(now))]; }
    }

    method MakeRequest(a: Action, id: RequestId, now: int, blocked: bool) returns (r: Request)
      modifies this`table
      ensures table == Requested(old(table), a, id, now, blocked) && r == Asked(a, id, now, blocked)
    {
      r := Asked(a, id, now, false);
      table := Inserted(table, r);
      if blocked {
        r := r.(status := Denied, decision := Some(DenyWithFeedback));
        table := Update(table, r);
      }
    }

    /** The errors a caller would catch are answers here. */
    method Authorize(a: Action, id: RequestId, now: int, blocked: bool) returns (answer: Answer)
      requires TableOk(table)
      modifies this`table
      ensures (table, answer) == Authorized(policy, old(table), a, id, now, blocked)
    {
      var grant := MatchingGrant(a);
      if grant.Some? {
        var k := GrantPlace(table, a);
        if grant.value.decision == Some(ApproveOnce) {
          MarkUsed(grant.value.id, now);
        }
        return ByGrant(grant.value.id);
      }
      match Evaluate(policy, a.kind)
      case Allow => return ByPolicy;
      case Refuse => return PermissionDenied;
      case Ask =>
        var r := MakeRequest(a, id, now, blocked);
        return if r.status == Denied then PermissionDenied else PermissionRequired(id);
    }

    /** None stands for the two errors: a decision by an agent, or of a request that is not there. */
    method Decide(id: RequestId, d: Decision, who: string) returns (r: Option<Request>)
      modifies this`table
      ensures table == Decided(old(table), id, d, who)
      ensures r.Some? <==> Principal(who) && IndexOf(old(table), id) < |old(table)|
      ensures r.Some? ==> r.value == table[IndexOf(old(table), id)]
    {
      if !Principal(who) { return None; }
      var k := IndexOf(table, id);
      if k == |table| { return None; }
      if table[k].status == Pending {
        table := table[k := table[k].(status := StatusOf(d), decision := Some(d))];
      }
      return Some(table[k]);
    }
  }
}
