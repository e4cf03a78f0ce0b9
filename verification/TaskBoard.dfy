/**
 The shared task board as compare-and-set operations, and why a stalled run is over: the deadlock check.
 */
module TaskBoard {
  import opened Basics

  datatype Status =
    | Pending | Claimed | Running | Produced | Verifying | Succeeded
    | RepairRequired | ReplanRequired | Failed | Blocked | Cancelled

  datatype Task = Task(
    status: Status,
    dependencies: seq<TaskId>,
    required: seq<Capability>,
    priority: int,
    createdAt: int,
    claimedBy: Option<AgentId>,
    attempts: nat,
    maxAttempts: int,
    graceUsed: nat,
    nextAttempt: Option<int>,
    supersededByPlan: bool,
    supersededByRepair: bool)

  /** The board is a value; every operation answers the next one. */
  type Board = map<TaskId, Task>

  /** Extra retries granted to rate-limited failures. */
  const RATE_LIMIT_GRACE := 5

  predicate DepsSatisfied(b: Board, t: Task) {
    forall d | d in t.dependencies :: d in b && b[d].status == Succeeded
  }

  predicate Terminal(s: Status) {
    s in {Succeeded, Failed, Cancelled}
  }

  // ----- Operations -----

  datatype Event =
    | Create(dependencies: seq<TaskId>, required: seq<Capability>, priority: int, createdAt: int, maxAttempts: int)
    | Claim(agent: AgentId)
    | Start(agent: AgentId)
    | Release(agent: AgentId)
    | MarkProduced(agent: AgentId)
    | MarkVerifying
    | MarkVerified
    | MarkRepairRequired
    | MarkBlocked(agent: AgentId)
    | Fail(agent: AgentId, retryable: bool, rateLimited: bool, retryAt: int)
    | Retry
    | Cancel
    | RequestReplan
    | WriteBack(copy: Task)

  /** What no operation changes: two states of one row agree on it. */
  predicate SameRow(t: Task, u: Task) {
    t.dependencies == u.dependencies && t.required == u.required && t.priority == u.priority && t.createdAt == u.createdAt
  }

  /** What each operation on a task compares before it sets. The scheduler's write-backs compare nothing: they
      put back a copy of the row that was read earlier, whatever its status. */
  predicate Guarded(t: Task, e: Event) {
    match e
    case Create(_, _, _, _, _) => false
    case Claim(_) => t.status == Pending
    case Start(a) => t.claimedBy == Some(a) && t.status == Claimed
    case Release(a) => t.claimedBy == Some(a) && t.status in {Claimed, Running, Blocked}
    case MarkProduced(a) => t.claimedBy == Some(a) && t.status == Running
    case MarkVerifying => t.status == Produced
    case MarkVerified => t.status in {Produced, Verifying}
    case MarkRepairRequired => t.status in {Produced, Verifying}
    case MarkBlocked(a) => t.claimedBy == Some(a) && t.status == Running
    case Fail(a, _, _, _) => t.claimedBy == Some(a)
    case Retry => t.status in {Failed, RepairRequired, ReplanRequired, Blocked}
    case Cancel => !Terminal(t.status)
    case RequestReplan => t.status != Cancelled
    case WriteBack(copy) => SameRow(t, copy)
  }

  predicate Allowed(b: Board, id: TaskId, e: Event) {
    if e.Create? then id !in b
    else id in b && Guarded(b[id], e) && (e.Claim? ==> DepsSatisfied(b, b[id]))
  }

  function Failing(t: Task, retryable: bool, rateLimited: bool, retryAt: int): Task {
    var u := t.(attempts := t.attempts + 1);
    if retryable && u.attempts < u.maxAttempts then
      u.(status := Pending, claimedBy := None, nextAttempt := Some(retryAt))
    else if rateLimited && u.graceUsed < RATE_LIMIT_GRACE then
      u.(status := Pending, claimedBy := None, graceUsed := u.graceUsed + 1, nextAttempt := Some(retryAt))
    else u.(status := Failed, nextAttempt := None)
  }

  function Updated(t: Task, e: Event): Task
    requires !e.Create?
  {
    match e
    case Claim(a) => t.(status := Claimed, claimedBy := Some(a))
    case Start(_) => t.(status := Running)
    case Release(_) => t.(status := Pending, claimedBy := None, attempts := t.attempts + 1)
    case MarkProduced(_) => t.(status := Produced)
    case MarkVerifying => t.(status := Verifying)
    case MarkVerified => t.(status := Succeeded)
    case MarkRepairRequired => t.(status := RepairRequired)
    case MarkBlocked(_) => t.(status := Blocked)
    case Fail(_, retryable, rateLimited, retryAt) => Failing(t, retryable, rateLimited, retryAt)
    case Retry => t.(status := Pending, claimedBy := None, nextAttempt := None,
                     maxAttempts := if t.attempts >= t.maxAttempts then t.attempts + 1 else t.maxAttempts)
    case Cancel => t.(status := Cancelled)
    case RequestReplan => t.(status := ReplanRequired)
    case WriteBack(copy) => copy
  }

  function Apply(b: Board, id: TaskId, e: Event): Board {
    if !Allowed(b, id, e) then b
    else if e.Create? then
      b[id := Task(Pending, e.dependencies, e.required, e.priority, e.createdAt,
                   None, 0, e.maxAttempts, 0, None, false, false)]
    else b[id := Updated(b[id], e)]
  }

  /** Takes a task out of SUCCEEDED or CANCELLED: a failure report of its claimant, a request for a new plan of
      a succeeded task, or the write-back of a copy read at another status. */
  predicate Revives(t: Task, e: Event) {
    && t.status in {Succeeded, Cancelled} && Guarded(t, e)
    && (e.Fail? || e.RequestReplan? || (e.WriteBack? && e.copy.status != t.status))
  }

  /** The operation reopens a succeeded task. */
  predicate Reopens(b: Board, id: TaskId, e: Event) {
    id in b && b[id].status == Succeeded && Revives(b[id], e)
  }

  // ----- What every history keeps -----

  predicate Committed(s: Status) {
    s in {Claimed, Running, Produced, Verifying, Succeeded}
  }

  /** Every task under way or done has succeeded dependencies. */
  ghost predicate Earned(b: Board) {
    forall id | id in b && Committed(b[id].status) :: DepsSatisfied(b, b[id])
  }

  /** The dependencies of a copy have all succeeded once it is written back to id. */
  predicate Founded(b: Board, id: TaskId, copy: Task) {
    forall d | d in copy.dependencies :: if d == id then copy.status == Succeeded else d in b && b[d].status == Succeeded
  }

  /** The operation reopens no task that another one under way or done depends on, and writes no copy under way
      or done back over dependencies that have not succeeded. */
  predicate Harmless(b: Board, id: TaskId, e: Event) {
    && (Reopens(b, id, e) ==> forall k | k in b && k != id && Committed(b[k].status) :: id !in b[k].dependencies)
    && (e.WriteBack? && Allowed(b, id, e) && Committed(e.copy.status) ==> Founded(b, id, e.copy))
  }

  /** An operation keeps this exactly when it is harmless. */
  lemma {:induction false} ApplyKeepsEarned(b: Board, id: TaskId, e: Event)
    requires Earned(b)
    ensures Earned(Apply(b, id, e)) <==> Harmless(b, id, e)
  {
    if Harmless(b, id, e) {
      HarmlessKeeps(b, id, e);
    } else {
      HarmBreaks(b, id, e);
    }
  }

  lemma {:induction false} HarmBreaks(b: Board, id: TaskId, e: Event)
    requires Earned(b) && !Harmless(b, id, e)
    ensures !Earned(Apply(b, id, e))
  {
    var c := Apply(b, id, e);
    if Reopens(b, id, e) && exists k :: k in b && k != id && Committed(b[k].status) && id in b[k].dependencies {
      var k :| k in b && k != id && Committed(b[k].status) && id in b[k].dependencies;
      assert c[k] == b[k] && c[id].status != Succeeded;
      assert !DepsSatisfied(c, c[k]);
    } else {
      assert c[id] == e.copy && !DepsSatisfied(c, e.copy);
    }
  }

  lemma {:induction false} HarmlessKeeps(b: Board, id: TaskId, e: Event)
    requires Earned(b) && Harmless(b, id, e)
    ensures Earned(Apply(b, id, e))
  {
    var c := Apply(b, id, e);
    forall k | k in c && Committed(c[k].status) ensures DepsSatisfied(c, c[k]) {
      if k != id { OtherStaysEarned(b, id, e, k); } else { ItselfIsEarned(b, id, e); }
    }
  }

  lemma {:induction false} OtherStaysEarned(b: Board, id: TaskId, e: Event, k: TaskId)
    requires Earned(b) && Harmless(b, id, e) && k in b && k != id && Committed(b[k].status)
    ensures DepsSatisfied(Apply(b, id, e), b[k])
  {
    assert DepsSatisfied(b, b[k]);
  }

  lemma {:induction false} ItselfIsEarned(b: Board, id: TaskId, e: Event)
    requires Earned(b) && Harmless(b, id, e)
    ensures var c := Apply(b, id, e); id in c && Committed(c[id].status) ==> DepsSatisfied(c, c[id])
  {
    var c := Apply(b, id, e);
    if Allowed(b, id, e) && !e.Create? && !e.WriteBack? && Committed(c[id].status) {
      assert c[id].dependencies == b[id].dependencies && DepsSatisfied(b, b[id]);
    }
  }

  datatype Step = Step(id: TaskId, event: Event)

  function Play(b: Board, steps: seq<Step>): Board
    decreases |steps|
  {
    if |steps| == 0 then b
    else Play(Apply(b, steps[0].id, steps[0].event), steps[1..])
  }

  ghost predicate Careful(b: Board, steps: seq<Step>)
    decreases |steps|
  {
    |steps| > 0 ==>
      && Harmless(b, steps[0].id, steps[0].event)
      && Careful(Apply(b, steps[0].id, steps[0].event), steps[1..])
  }

  /** Earned from here on, at every step. */
  ghost predicate EarnedThroughout(b: Board, steps: seq<Step>)
    decreases |steps|
  {
    Earned(b) && (|steps| > 0 ==> EarnedThroughout(Apply(b, steps[0].id, steps[0].event), steps[1..]))
  }

  /** Over a history every task under way or done has succeeded dependencies throughout if and only if
      every operation is harmless. */
  lemma {:induction false} PlayKeepsEarned(b: Board, steps: seq<Step>)
    requires Earned(b)
    ensures EarnedThroughout(b, steps) <==> Careful(b, steps)
    ensures Careful(b, steps) ==> Earned(Play(b, steps))
    decreases |steps|
  {
    if |steps| > 0 {
      ApplyKeepsEarned(b, steps[0].id, steps[0].event);
      var c := Apply(b, steps[0].id, steps[0].event);
      if Earned(c) { PlayKeepsEarned(c, steps[1..]); }
    }
  }

  // ----- The ends that are not final -----

  /** The status of the task is s from here on, at every step. */
  ghost predicate Stays(b: Board, steps: seq<Step>, id: TaskId, s: Status)
    decreases |steps|
  {
    && id in b && b[id].status == s
    && (|steps| > 0 ==> Stays(Apply(b, steps[0].id, steps[0].event), steps[1..], id, s))
  }

  /** Some operation of the history finds the task in status s and revives it. */
  ghost predicate Revived(b: Board, steps: seq<Step>, id: TaskId, s: Status)
    decreases |steps|
  {
    && |steps| > 0
    && (|| (steps[0].id == id && id in b && b[id].status == s && Revives(b[id], steps[0].event))
        || Revived(Apply(b, steps[0].id, steps[0].event), steps[1..], id, s))
  }

  /** Over every history of the board: a task that has succeeded, or is cancelled, stays so unless it is revived,
      by the failure report of its claimant, by a request for a new plan of a succeeded task, or by the
      write-back of a copy read at another status. */
  lemma {:induction false} EndsAreRevived(b: Board, steps: seq<Step>, id: TaskId)
    requires id in b && b[id].status in {Succeeded, Cancelled}
    ensures Stays(b, steps, id, b[id].status) <==> !Revived(b, steps, id, b[id].status)
    decreases |steps|
  {
    if |steps| > 0 {
      var c := Apply(b, steps[0].id, steps[0].event);
      if c[id].status == b[id].status {
        EndsAreRevived(c, steps[1..], id);
      }
    }
  }

  /** A copy of a row can be written back at any later point of a history, and undoes what the history did to it:
      nothing compared stands against it. */
  lemma {:induction false} WriteBackUndoes(b: Board, steps: seq<Step>, id: TaskId)
    requires id in b
    ensures var c := Play(b, steps);
            && id in c && Allowed(c, id, WriteBack(b[id]))
            && Apply(c, id, WriteBack(b[id])) == c[id := b[id]]
  {
    RowStays(b, steps, id);
  }

  lemma {:induction false} RowStays(b: Board, steps: seq<Step>, id: TaskId)
    requires id in b
    ensures id in Play(b, steps) && SameRow(Play(b, steps)[id], b[id])
    decreases |steps|
  {
    if |steps| > 0 {
      RowStays(Apply(b, steps[0].id, steps[0].event), steps[1..], id);
    }
  }

  // ----- Dependencies as a graph -----

  /** p walks along dependency edges of the board. */
  ghost predicate Chain(b: Board, p: seq<TaskId>) {
    && |p| > 0 && (forall i | 0 <= i < |p| :: p[i] in b)
    && forall i | 0 < i < |p| :: p[i] in b[p[i - 1]].dependencies
  }

  ghost predicate Acyclic(b: Board) {
    forall p: seq<TaskId> | Chain(b, p) && |p| > 1 :: p[0] != p[|p| - 1]
  }

  /** Nothing is under way: every task waits or has ended. */
  predicate Quiet(b: Board) {
    forall id | id in b :: b[id].status in {Pending, Succeeded, Failed, Cancelled}
  }

  predicate Dead(s: Status) {
    s in {Failed, Cancelled}
  }

  /** id waits for a task that can no longer succeed, through any number of dependencies. */
  ghost predicate Doomed(b: Board, id: TaskId) {
    exists p: seq<TaskId> :: Chain(b, p) && |p| > 1 && p[0] == id && Dead(b[p[|p| - 1]].status)
  }

  predicate DirectlyDoomed(b: Board, id: TaskId) {
    id in b && exists d | d in b[id].dependencies :: d in b && Dead(b[d].status)
  }

  /** Along a chain from a pending task to a dead one, some pending task depends on a dead one directly. */
  lemma {:induction false} ChainBreaks(b: Board, p: seq<TaskId>) returns (id: TaskId)
    requires Earned(b) && Quiet(b) && Chain(b, p) && |p| > 1
    requires b[p[0]].status == Pending && Dead(b[p[|p| - 1]].status)
    ensures id in b && b[id].status == Pending && DirectlyDoomed(b, id)
    decreases |p|
  {
    if b[p[1]].status == Pending {
      var q := p[1..];
      assert forall i | 0 <= i < |q| :: q[i] == p[i + 1];
      id := ChainBreaks(b, q);
    } else {
      id := p[0];
      if !Dead(b[p[1]].status) { SettledChain(b, p[1..]); }
    }
  }

  /** From a succeeded task a chain meets succeeded tasks only. */
  lemma {:induction false} SettledChain(b: Board, p: seq<TaskId>)
    requires Earned(b) && Chain(b, p) && b[p[0]].status == Succeeded
    ensures b[p[|p| - 1]].status == Succeeded
    decreases |p|
  {
    if |p| > 1 {
      var q := p[1..];
      assert forall i | 0 <= i < |q| :: q[i] == p[i + 1];
      assert DepsSatisfied(b, b[p[0]]);
      SettledChain(b, q);
    }
  }

  /** The direct check is complete: it fires exactly when some pending task is doomed at any distance. */
  lemma {:induction false} DirectCheckComplete(b: Board)
    requires Earned(b) && Quiet(b)
    ensures (exists id | id in b && b[id].status == Pending :: Doomed(b, id))
       <==> (exists id | id in b && b[id].status == Pending :: DirectlyDoomed(b, id))
  {
    if id :| id in b && b[id].status == Pending && Doomed(b, id) {
      var p: seq<TaskId> :| Chain(b, p) && |p| > 1 && p[0] == id && Dead(b[p[|p| - 1]].status);
      var k := ChainBreaks(b, p);
    }
    if id :| id in b && b[id].status == Pending && DirectlyDoomed(b, id) {
      var d :| d in b[id].dependencies && d in b && Dead(b[d].status);
      var p := [id, d];
      assert Chain(b, p) && p[0] == id && p[|p| - 1] == d;
      assert Doomed(b, id);
    }
  }

  predicate DepsPresent(b: Board) {
    forall id | id in b :: forall d | d in b[id].dependencies :: d in b
  }

  /** Follows unsatisfied dependencies until a task is ready; a repetition would be a cycle. */
  lemma {:induction false} FindReady(b: Board, p: seq<TaskId>, seen: set<TaskId>) returns (id: TaskId)
    requires Quiet(b) && DepsPresent(b) && Acyclic(b)
    requires forall k | k in b && b[k].status == Pending :: !DirectlyDoomed(b, k)
    requires Chain(b, p) && b[p[|p| - 1]].status == Pending
    requires seen == (set k | k in p) && seen <= b.Keys
    ensures id in b && b[id].status == Pending && DepsSatisfied(b, b[id])
    decreases b.Keys - seen
  {
    id := p[|p| - 1];
    if !DepsSatisfied(b, b[id]) {
      var d :| d in b[id].dependencies && !(d in b && b[d].status == Succeeded);
      assert d in b && !Dead(b[d].status);
      var q := p + [d];
      assert Chain(b, q);
      if d in p {
        var i :| 0 <= i < |p| && p[i] == d;
        var cycle := q[i..];
        assert forall j | 0 <= j < |cycle| :: cycle[j] == q[i + j];
        assert cycle[0] == cycle[|cycle| - 1];
        assert Chain(b, cycle);
        assert false;
      }
      id := FindReady(b, q, seen + {d});
    }
  }

  /** If no pending task is doomed, an acyclic board with a pending task has one that is ready. */
  lemma {:induction false} StalledBoardHasReadyTask(b: Board)
    requires Earned(b) && Quiet(b) && DepsPresent(b) && Acyclic(b)
    requires exists id :: id in b && b[id].status == Pending
    requires forall id | id in b && b[id].status == Pending :: !Doomed(b, id)
    ensures exists id :: id in b && b[id].status == Pending && DepsSatisfied(b, b[id])
  {
    DirectCheckComplete(b);
    var k :| k in b && b[k].status == Pending;
    assert Chain(b, [k]);
    var id := FindReady(b, [k], {k});
  }

  // ----- Resolving an idle scheduler -----

  datatype Verdict =
    | AllSucceeded
    | Backoff
    | WaitingHuman
    | TasksFailed
    | TasksCancelled
    | Deadlock(ids: set<TaskId>)
    | NoEligibleWorker(unserviceable: set<TaskId>)
    | SchedulerDeadlock

  predicate BoardSucceeded(b: Board) {
    forall id | id in b ::
      || b[id].status == Succeeded || b[id].supersededByPlan
      || (b[id].status == RepairRequired && b[id].supersededByRepair)
  }

  predicate Deferred(t: Task, now: int) {
    t.status == Pending && t.nextAttempt.Some? && t.nextAttempt.value > now
  }

  /** What the scheduler concludes when nothing runs and nothing can be dispatched; served holds the
      tasks some live agent can serve. */
  function Resolve(b: Board, now: int, served: set<TaskId>): Verdict {
    var deadlocked := set id | id in b && b[id].status == Pending && DirectlyDoomed(b, id);
    var pending := set id | id in b && b[id].status == Pending;
    if BoardSucceeded(b) then AllSucceeded
    else if exists id | id in b :: Deferred(b[id], now) then Backoff
    else if exists id | id in b :: b[id].status in {Blocked, RepairRequired, ReplanRequired} then WaitingHuman
    else if (forall id | id in b :: Terminal(b[id].status)) && (exists id | id in b :: b[id].status == Failed) then
      TasksFailed
    else if (forall id | id in b :: Terminal(b[id].status)) && (exists id | id in b :: b[id].status == Cancelled) then
      TasksCancelled
    else if deadlocked != {} then Deadlock(deadlocked)
    else if pending != {} then
      NoEligibleWorker(set id | id in pending && DepsSatisfied(b, b[id]) && id !in served)
    else SchedulerDeadlock
  }

  /** A stalled quiet board is called deadlocked exactly when some pending task is doomed at any distance. */
  lemma {:induction false} DeadlockVerdict(b: Board, now: int, served: set<TaskId>)
    requires Earned(b) && Quiet(b)
    ensures Resolve(b, now, served).Deadlock? <==>
            && !BoardSucceeded(b) && (forall id | id in b :: !Deferred(b[id], now))
            && exists id :: id in b && b[id].status == Pending && Doomed(b, id)
  {
    DirectCheckComplete(b);
    var deadlocked := set id | id in b && b[id].status == Pending && DirectlyDoomed(b, id);
    if id :| id in b && b[id].status == Pending && DirectlyDoomed(b, id) {
      assert id in deadlocked;
    }
  }

  /** A stalled quiet board without doomed tasks always has a ready task: what is missing is a worker.
      The last-resort verdict never occurs. */
  lemma {:induction false} NoWorkerVerdict(b: Board, now: int, served: set<TaskId>)
    requires Earned(b) && Quiet(b)
    ensures !Resolve(b, now, served).SchedulerDeadlock?
    ensures Resolve(b, now, served).NoEligibleWorker? && DepsPresent(b) && Acyclic(b)
            ==> exists id :: id in b && b[id].status == Pending && DepsSatisfied(b, b[id])
  {
    var v := Resolve(b, now, served);
    var pending := set id | id in b && b[id].status == Pending;
    if pending == {} {
      forall id | id in b ensures Terminal(b[id].status) {
        assert b[id].status == Pending ==> id in pending;
      }
    }
    if v.NoEligibleWorker? && DepsPresent(b) && Acyclic(b) {
      DeadlockVerdict(b, now, served);
      var k :| k in pending;
      StalledBoardHasReadyTask(b);
    }
  }

  /** After every history of harmless operations, an idle scheduler over a quiet board never gives the
      last-resort verdict, calls a deadlock exactly what is one at any distance, and misses a worker only
      with a ready task, if all dependencies are present and free of cycles. */
  lemma {:induction false} VerdictsAfterAnyHistory(steps: seq<Step>, now: int, served: set<TaskId>)
    requires Careful(map[], steps) && Quiet(Play(map[], steps))
    ensures var b := Play(map[], steps);
            var v := Resolve(b, now, served);
            && !v.SchedulerDeadlock?
            && (v.Deadlock? <==>
                  && !BoardSucceeded(b) && (forall id | id in b :: !Deferred(b[id], now))
                  && exists id :: id in b && b[id].status == Pending && Doomed(b, id))
            && (v.NoEligibleWorker? && DepsPresent(b) && Acyclic(b)
                ==> exists id :: id in b && b[id].status == Pending && DepsSatisfied(b, b[id]))
  {
    PlayKeepsEarned(map[], steps);
    DeadlockVerdict(Play(map[], steps), now, served);
    NoWorkerVerdict(Play(map[], steps), now, served);
  }
}
