/** One task, all the attempts at it and the operator: evidence is produced, judged and marked, then the task succeeds. */
module Evidence {
  import opened Basics
  import B = TaskBoard

  type ArtifactId = string

  datatype Mark = Unjudged | Verified | Rejected

  /** The task on the board and the artifacts it records. */
  datatype Row = Row(task: B.Task, produced: set<ArtifactId>)

  /** What became of the row an attempt reads in order to write it back. */
  datatype Copy = Unread | Held(row: Row) | Returned

  datatype Stage =
    | Claimed | Working | Produced | Verifying | Passed
    | Refused               // the hook blocked: its feedback goes onto the row
    | Approved
    | Conflicted            // the merge failed: the conflicts go onto the row
    | Marking(marked: nat)
    | Returning             // the board is to be told that a repair is needed
    | Ousted                // the board has moved on: the artifacts are withdrawn
    | Closing               // history and hooks are told; they may raise
    | Done

  /** slot numbers the row the attempt got when it claimed the task. */
  datatype Attempt = Attempt(agent: AgentId, slot: nat, ids: seq<ArtifactId>, stage: Stage, copy: Copy,
                             passed: bool, approved: bool, merged: bool, won: bool)

  /** The row in force, the rows other ones took the place of, oldest first, the artifacts and the attempts. */
  datatype World = World(task: B.Task, produced: set<ArtifactId>, replaced: seq<Row>,
                         marks: map<ArtifactId, Mark>, attempts: seq<Attempt>)

  /** Every call on the board is a step of its own, and so is the marking of each artifact; the rejection of an
      attempt's artifacts goes with the call beside it. Anything the operator or another attempt does may fall between
      two steps, also between reading a copy of the row and writing it back. Calls on the board and the store return
      normally; what is called between them may raise. */
  datatype Event =
    | Claim(agent: AgentId)
    | Start(k: nat, admitted: bool)
    | SubmitPlan(k: nat)
    | Produce(k: nat, ids: seq<ArtifactId>)
    | StartVerify(k: nat)
    | Read(k: nat)
    | WriteBack(k: nat)
    | Verdict(k: nat, pass: bool)
    | Hook(k: nat, allow: bool)
    | Merge(k: nat, conflict: bool)
    | MarkNext(k: nat, found: bool)
    | Commit(k: nat)
    | SendBack(k: nat)
    | Withdraw(k: nat)
    | Fail(k: nat, retryable: bool, rateLimited: bool, retryAt: int)
    | Release(k: nat)
    | AwaitPermission(k: nat)
    | Retire(k: nat)
    | Outside(event: B.Event)

  function IdSet(ids: seq<ArtifactId>): set<ArtifactId> {
    set i | i in ids
  }

  function Tried(t: B.Task, e: B.Event): B.Task {
    if B.Guarded(t, e) then B.Updated(t, e) else t
  }

  function Reject(marks: map<ArtifactId, Mark>, ids: set<ArtifactId>): map<ArtifactId, Mark> {
    map i | i in marks :: if i in ids then Rejected else marks[i]
  }

  function RejectAll(w: World, k: nat): World
    requires k < |w.attempts|
  {
    w.(marks := Reject(w.marks, IdSet(w.attempts[k].ids)))
  }

  // ----- Rows and copies -----

  function Current(w: World): Row {
    Row(w.task, w.produced)
  }

  /** Another row takes the place of the one in force. */
  function Put(w: World, r: Row): World {
    w.(task := B.Updated(w.task, B.WriteBack(r.task)), produced := r.produced, replaced := w.replaced + [Current(w)])
  }

  /** The row the attempt holds: the one in force, until another one took its place. */
  function Own(w: World, a: Attempt): Row {
    if a.slot < |w.replaced| then w.replaced[a.slot] else Current(w)
  }

  /** The attempt puts its own row back, with this status. */
  function PutOwn(w: World, k: nat, status: B.Status): World
    requires k < |w.attempts|
  {
    var own := Own(w, w.attempts[k]);
    var row := own.(task := own.task.(status := status));
    if w.attempts[k].slot < |w.replaced| then
      Put(w, row).(attempts := w.attempts[k := w.attempts[k].(slot := |w.replaced| + 1)])
    else w.(task := row.task)
  }

  /** A verdict and a hook's feedback leave the status of the copy as it was; merge conflicts set it. */
  function WrittenBack(a: Attempt): Row
    requires a.copy.Held?
  {
    if a.stage == Conflicted then a.copy.row.(task := a.copy.row.task.(status := B.RepairRequired)) else a.copy.row
  }

  // ----- Steps -----

  /** Something that is called at this point besides the board may raise. */
  predicate CanRaise(a: Attempt) {
    a.stage in {Working, Produced, Passed, Approved, Closing} || (a.stage == Verifying && a.copy == Unread)
  }

  /** The kth attempt can take the step now. */
  predicate Ready(a: Attempt, marks: map<ArtifactId, Mark>, e: Event)
    requires !e.Claim? && !e.Outside?
  {
    match e
    case Start(_, _) => a.stage == Claimed
    case SubmitPlan(_) => a.stage == Working
    case Produce(_, ids) => a.stage == Working && IdSet(ids) !! marks.Keys
    case StartVerify(_) => a.stage == Produced
    case Read(_) => a.stage in {Verifying, Refused, Conflicted, Ousted} && a.copy == Unread
    case WriteBack(_) => a.stage in {Verifying, Refused, Conflicted} && a.copy.Held?
    case Verdict(_, pass) => a.stage == Verifying && (pass ==> !a.copy.Held?)
    case Hook(_, _) => a.stage == Passed
    case Merge(_, _) => a.stage == Approved
    case MarkNext(_, _) => a.stage.Marking? && a.stage.marked < |a.ids|
    case Commit(_) => a.stage.Marking? && a.stage.marked >= |a.ids|
    case SendBack(_) => a.stage == Returning
    case Withdraw(_) => a.stage == Ousted && a.copy.Held?
    case Fail(_, _, _, _) => CanRaise(a)
    case Release(_) => a.stage == Working
    case AwaitPermission(_) => a.stage == Working
    case Retire(_) => a.stage == Closing
  }

  predicate Enabled(w: World, e: Event) {
    match e
    case Claim(agent) => forall i | 0 <= i < |w.attempts| :: w.attempts[i].stage != Done ==> w.attempts[i].agent != agent
    case Outside(o) => o.Cancel? || o.Retry? || o.RequestReplan? || o.MarkBlocked?
    case _ => e.k < |w.attempts| && Ready(w.attempts[e.k], w.marks, e)
  }

  function Step(w: World, e: Event): World
    requires Enabled(w, e)
  {
    match e
    case Claim(agent) => AfterClaim(w, agent)
    case Start(k, admitted) => AfterStart(w, k, admitted)
    case SubmitPlan(k) => AfterPlan(w, k)
    case Produce(k, ids) => AfterProduce(w, k, ids)
    case StartVerify(k) => AfterStartVerify(w, k)
    case Read(k) => AfterRead(w, k)
    case WriteBack(k) => AfterWriteBack(w, k)
    case Verdict(k, pass) => AfterVerdict(w, k, pass)
    case Hook(k, allow) => AfterHook(w, k, allow)
    case Merge(k, conflict) => AfterMerge(w, k, conflict)
    case MarkNext(k, found) => AfterMark(w, k, found)
    case Commit(k) => AfterCommit(w, k)
    case SendBack(k) => AfterSendBack(w, k)
    case Withdraw(k) => AfterWithdraw(w, k)
    case Fail(k, retryable, rateLimited, retryAt) =>
      AfterFail(w, k, B.Fail(w.attempts[k].agent, retryable, rateLimited, retryAt))
    case Release(k) => AfterRelease(w, k)
    case AwaitPermission(k) => AfterPermission(w, k)
    case Retire(k) => At(w, k, Done)
    case Outside(o) => Tell(w, o)
  }

  /** The operation takes effect if what it compares holds. */
  function Tell(w: World, op: B.Event): World {
    w.(task := Tried(w.task, op))
  }

  function Moved(w: World, k: nat, a: Attempt): World
    requires k < |w.attempts|
  {
    w.(attempts := w.attempts[k := a])
  }

  function At(w: World, k: nat, stage: Stage): World
    requires k < |w.attempts|
  {
    Moved(w, k, w.attempts[k].(stage := stage, copy := Unread))
  }

  function Fresh(agent: AgentId, slot: nat): Attempt {
    Attempt(agent, slot, [], Claimed, Unread, false, false, false, false)
  }

  /** A claim puts a new row into the place of the old one. */
  function AfterClaim(w: World, agent: AgentId): World {
    var claim := B.Claim(agent);
    if !B.Guarded(w.task, claim) then w
    else Put(w, Row(B.Updated(w.task, claim), w.produced)).(attempts := w.attempts + [Fresh(agent, |w.replaced| + 1)])
  }

  /** An attempt that may not start, or cannot, gives the task back. */
  function AfterStart(w: World, k: nat, admitted: bool): World
    requires k < |w.attempts|
  {
    var agent := w.attempts[k].agent;
    if admitted && B.Guarded(w.task, B.Start(agent)) then Tell(At(w, k, Working), B.Start(agent))
    else Tell(At(w, k, Done), B.Release(agent))
  }

  /** The worker hands in its artifacts. */
  function AfterProduce(w: World, k: nat, ids: seq<ArtifactId>): World
    requires k < |w.attempts|
  {
    var a, produce := w.attempts[k].(ids := ids, copy := Unread), B.MarkProduced(w.attempts[k].agent);
    var made := w.(marks := w.marks + map i | i in IdSet(ids) :: Unjudged);
    if B.Guarded(w.task, produce) then Tell(Moved(made, k, a.(stage := Produced)), produce).(produced := IdSet(ids))
    else Moved(made, k, a.(stage := Ousted))
  }

  function AfterStartVerify(w: World, k: nat): World
    requires k < |w.attempts|
  {
    if B.Guarded(w.task, B.MarkVerifying) then Tell(At(w, k, Verifying), B.MarkVerifying) else At(w, k, Ousted)
  }

  /** The copy takes the place of the row in force, whatever that is by now. */
  function AfterWriteBack(w: World, k: nat): World
    requires k < |w.attempts| && w.attempts[k].copy.Held?
  {
    var a := w.attempts[k];
    var v := Put(w, WrittenBack(a));
    if a.stage == Verifying then Moved(v, k, a.(copy := Returned))
    else At(v, k, if a.stage == Refused then Returning else Closing)
  }

  /** One artifact is marked; if its row is missing all are rejected. */
  function AfterMark(w: World, k: nat, found: bool): World
    requires k < |w.attempts| && w.attempts[k].stage.Marking? && w.attempts[k].stage.marked < |w.attempts[k].ids|
  {
    var n := w.attempts[k].stage.marked;
    if found then At(w, k, Marking(n + 1)).(marks := w.marks[w.attempts[k].ids[n] := Verified])
    else At(RejectAll(w, k), k, Returning)
  }

  /** The task succeeds, or all artifacts are rejected. */
  function AfterCommit(w: World, k: nat): World
    requires k < |w.attempts|
  {
    if B.Guarded(w.task, B.MarkVerified) then
      Tell(Moved(w, k, w.attempts[k].(stage := Closing, copy := Unread, won := true)), B.MarkVerified)
    else At(RejectAll(w, k), k, Ousted)
  }

  function AfterSendBack(w: World, k: nat): World
    requires k < |w.attempts|
  {
    if B.Guarded(w.task, B.MarkRepairRequired) then Tell(At(w, k, Closing), B.MarkRepairRequired) else At(w, k, Ousted)
  }

  /** The artifacts are rejected, but for those a task seen to have succeeded stands on. */
  function AfterWithdraw(w: World, k: nat): World
    requires k < |w.attempts| && w.attempts[k].copy.Held?
  {
    var seen := w.attempts[k].copy.row;
    var kept := if seen.task.status == B.Succeeded then seen.produced else {};
    At(w, k, Closing).(marks := Reject(w.marks, IdSet(w.attempts[k].ids) - kept))
  }

  function AfterPlan(w: World, k: nat): World
    requires k < |w.attempts|
  {
    PutOwn(w, k, Own(w, w.attempts[k]).task.status)
  }

  function AfterRead(w: World, k: nat): World
    requires k < |w.attempts|
  {
    Moved(w, k, w.attempts[k].(copy := Held(Current(w))))
  }

  function AfterVerdict(w: World, k: nat, pass: bool): World
    requires k < |w.attempts|
  {
    if pass then Moved(w, k, w.attempts[k].(stage := Passed, copy := Unread, passed := true)) else At(w, k, Returning)
  }

  function AfterHook(w: World, k: nat, allow: bool): World
    requires k < |w.attempts|
  {
    if allow then Moved(w, k, w.attempts[k].(stage := Approved, approved := true)) else At(w, k, Refused)
  }

  function AfterMerge(w: World, k: nat, conflict: bool): World
    requires k < |w.attempts|
  {
    if conflict then At(w, k, Conflicted) else Moved(w, k, w.attempts[k].(stage := Marking(0), merged := true))
  }

  /** After a failed result more is told, which may raise; what raises is reported last. */
  function AfterFail(w: World, k: nat, report: B.Event): World
    requires k < |w.attempts|
  {
    Tell(At(w, k, if w.attempts[k].stage == Working then Closing else Done), report)
  }

  function AfterRelease(w: World, k: nat): World
    requires k < |w.attempts|
  {
    Tell(At(w, k, Closing), B.Release(w.attempts[k].agent))
  }

  /** The attempt stops, and writes its row back as blocked. */
  function AfterPermission(w: World, k: nat): World
    requires k < |w.attempts|
  {
    At(PutOwn(w, k, B.Blocked), k, Closing)
  }

  // ----- Evidence -----

  /** What an attempt's artifacts and judgements look like at each stage. */
  ghost predicate AttemptOk(a: Attempt, marks: map<ArtifactId, Mark>) {
    && (forall i | 0 <= i < |a.ids| :: a.ids[i] in marks)
    && (a.won ==> a.stage in {Closing, Done} && Judged(a) && AllVerified(a, marks))
    && (!a.won && !a.stage.Marking? ==> forall i | 0 <= i < |a.ids| :: marks[a.ids[i]] != Verified)
    && (a.stage in {Claimed, Working} ==> a.ids == [])
    && (a.stage == Passed ==> a.passed)
    && (a.stage == Approved ==> a.passed && a.approved)
    && (a.stage.Marking? ==> Judged(a) && a.stage.marked <= |a.ids|)
    && (a.stage.Marking? ==> forall i | 0 <= i < a.stage.marked :: marks[a.ids[i]] == Verified)
  }

  ghost predicate AllVerified(a: Attempt, marks: map<ArtifactId, Mark>) {
    forall i | 0 <= i < |a.ids| :: a.ids[i] in marks && marks[a.ids[i]] == Verified
  }

  ghost predicate Judged(a: Attempt) {
    a.passed && a.approved && a.merged
  }

  ghost predicate Apart(w: World) {
    forall i, j | 0 <= i < j < |w.attempts| :: IdSet(w.attempts[i].ids) !! IdSet(w.attempts[j].ids)
  }

  ghost predicate SomeWon(w: World) {
    exists i :: 0 <= i < |w.attempts| && w.attempts[i].won
  }

  predicate HoldsSuccess(a: Attempt) {
    a.copy.Held? && a.copy.row.task.status == B.Succeeded
  }

  /** The row in force, a replaced one or a copy that waits to be written back has succeeded. */
  ghost predicate SuccessSeen(w: World) {
    || w.task.status == B.Succeeded
    || (exists i :: 0 <= i < |w.replaced| && w.replaced[i].task.status == B.Succeeded)
    || (exists i :: 0 <= i < |w.attempts| && HoldsSuccess(w.attempts[i]))
  }

  ghost predicate Inv(w: World) {
    && (forall i | 0 <= i < |w.attempts| :: AttemptOk(w.attempts[i], w.marks))
    && Apart(w)
    && (SuccessSeen(w) ==> SomeWon(w))
  }

  lemma {:induction false} AttemptStays(a: Attempt, marks: map<ArtifactId, Mark>, next: map<ArtifactId, Mark>)
    requires AttemptOk(a, marks)
    requires forall i | 0 <= i < |a.ids| :: a.ids[i] in next && next[a.ids[i]] == marks[a.ids[i]]
    ensures AttemptOk(a, next)
  {}

  /** Attempt k moved on, and at most one row took the place of another: success is seen where it was seen before. */
  ghost predicate RowsFrom(w: World, next: World, k: nat) {
    && k < |w.attempts| == |next.attempts| && next.attempts == w.attempts[k := next.attempts[k]]
    && (next.replaced == w.replaced || next.replaced == w.replaced + [Current(w)])
    && (HoldsSuccess(next.attempts[k]) ==> SuccessSeen(w))
    && (next.task.status == B.Succeeded ==> SuccessSeen(w) || next.attempts[k].won)
  }

  lemma {:induction false} SuccessStays(w: World, next: World, k: nat)
    requires RowsFrom(w, next, k) && SuccessSeen(next)
    ensures SuccessSeen(w) || next.attempts[k].won
  {
    if i :| 0 <= i < |next.replaced| && next.replaced[i].task.status == B.Succeeded {
      assert i < |w.replaced| ==> next.replaced[i] == w.replaced[i];
    } else if i :| 0 <= i < |next.attempts| && HoldsSuccess(next.attempts[i]) {
      assert i != k ==> next.attempts[i] == w.attempts[i];
    }
  }

  /** One attempt moved on and only its own artifacts changed. */
  lemma {:induction false} OneMoved(w: World, next: World, k: nat)
    requires Inv(w) && RowsFrom(w, next, k)
    requires IdSet(w.attempts[k].ids) <= IdSet(next.attempts[k].ids)
    requires forall x | x in w.marks && x !in IdSet(next.attempts[k].ids) :: x in next.marks && next.marks[x] == w.marks[x]
    requires forall x | x in IdSet(next.attempts[k].ids) :: x in IdSet(w.attempts[k].ids) || x !in w.marks
    requires AttemptOk(next.attempts[k], next.marks)
    requires w.attempts[k].won ==> next.attempts[k].won
    ensures Inv(next)
  {
    forall i | 0 <= i < |w.attempts| && i != k
      ensures IdSet(w.attempts[i].ids) !! IdSet(next.attempts[k].ids) && AttemptOk(w.attempts[i], next.marks)
    {
      OthersStay(w, next, k, i);
    }
    if SuccessSeen(next) {
      SuccessStays(w, next, k);
      if !next.attempts[k].won {
        var i :| 0 <= i < |w.attempts| && w.attempts[i].won;
        assert next.attempts[i].won;
      }
    }
  }

  lemma {:induction false} OthersStay(w: World, next: World, k: nat, i: nat)
    requires Inv(w) && k < |w.attempts| == |next.attempts| && i < |w.attempts| && i != k
    requires forall x | x in w.marks && x !in IdSet(next.attempts[k].ids) :: x in next.marks && next.marks[x] == w.marks[x]
    requires forall x | x in IdSet(next.attempts[k].ids) :: x in IdSet(w.attempts[k].ids) || x !in w.marks
    ensures IdSet(w.attempts[i].ids) !! IdSet(next.attempts[k].ids) && AttemptOk(w.attempts[i], next.marks)
  {
    var a := w.attempts[i];
    forall x | x in IdSet(a.ids) ensures x !in IdSet(next.attempts[k].ids) && x in w.marks {
      var j :| 0 <= j < |a.ids| && a.ids[j] == x;
    }
    forall j | 0 <= j < |a.ids| ensures a.ids[j] in next.marks && next.marks[a.ids[j]] == w.marks[a.ids[j]] {
      assert a.ids[j] in IdSet(a.ids);
    }
    AttemptStays(a, w.marks, next.marks);
  }

  /** An attempt moved on, the marks did not change. */
  lemma {:induction false} Advanced(w: World, next: World, k: nat)
    requires Inv(w) && RowsFrom(w, next, k) && next.marks == w.marks
    requires next.attempts[k].ids == w.attempts[k].ids && AttemptOk(next.attempts[k], w.marks)
    requires w.attempts[k].won ==> next.attempts[k].won
    ensures Inv(next)
  {
    OneMoved(w, next, k);
  }

  lemma {:induction false} ClaimKeeps(w: World, agent: AgentId)
    requires Inv(w)
    ensures Inv(AfterClaim(w, agent))
  {
    var next, n := AfterClaim(w, agent), |w.attempts|;
    if B.Guarded(w.task, B.Claim(agent)) {
      assert IdSet(next.attempts[n].ids) == {};
      assert forall i | 0 <= i < n :: next.attempts[i] == w.attempts[i];
      assert SomeWon(w) ==> SomeWon(next);
      if i :| 0 <= i < |next.replaced| && next.replaced[i].task.status == B.Succeeded {
        assert i < |w.replaced| ==> next.replaced[i] == w.replaced[i];
      } else if i :| 0 <= i < |next.attempts| && HoldsSuccess(next.attempts[i]) {
        assert i < n;
      }
    }
  }

  lemma {:induction false} OutsideKeeps(w: World, o: B.Event)
    requires Inv(w) && !o.MarkVerified? && !o.WriteBack? && !o.Create?
    ensures Inv(Tell(w, o))
  {
    assert SuccessSeen(Tell(w, o)) ==> SuccessSeen(w);
  }

  lemma {:induction false} ProduceKeeps(w: World, k: nat, ids: seq<ArtifactId>)
    requires Inv(w) && k < |w.attempts| && w.attempts[k].stage == Working && IdSet(ids) !! w.marks.Keys
    ensures Inv(AfterProduce(w, k, ids))
  {
    var next := AfterProduce(w, k, ids);
    NewMarks(w.marks, ids);
    assert next.attempts[k].ids == ids && w.attempts[k].ids == [] && !w.attempts[k].won;
    OneMoved(w, next, k);
  }

  lemma {:induction false} NewMarks(marks: map<ArtifactId, Mark>, ids: seq<ArtifactId>)
    requires IdSet(ids) !! marks.Keys
    ensures var next := marks + map i | i in IdSet(ids) :: Unjudged;
            && (forall x | x in marks :: x !in IdSet(ids) && x in next && next[x] == marks[x])
            && (forall i | 0 <= i < |ids| :: ids[i] in IdSet(ids) && ids[i] in next && next[ids[i]] == Unjudged)
  {}

  /** A roll-back leaves no artifact of the attempt verified, before the board is told. */
  lemma {:induction false} RollBackKeeps(w: World, k: nat, stage: Stage)
    requires Inv(w) && k < |w.attempts| && w.attempts[k].stage.Marking? && stage in {Returning, Ousted}
    ensures var next := At(RejectAll(w, k), k, stage);
            && Inv(next) && Current(next) == Current(w)
            && forall x | x in w.attempts[k].ids :: x in next.marks && next.marks[x] == Rejected
  {
    var a, next := w.attempts[k], At(RejectAll(w, k), k, stage);
    forall i | 0 <= i < |a.ids| ensures next.marks[a.ids[i]] == Rejected { assert a.ids[i] in IdSet(a.ids); }
    OneMoved(w, next, k);
  }

  lemma {:induction false} MarkKeeps(w: World, k: nat, found: bool)
    requires Inv(w) && k < |w.attempts| && w.attempts[k].stage.Marking? && w.attempts[k].stage.marked < |w.attempts[k].ids|
    ensures Inv(AfterMark(w, k, found))
  {
    if found { OneMoved(w, AfterMark(w, k, found), k); } else { RollBackKeeps(w, k, Returning); }
  }

  lemma {:induction false} CommitKeeps(w: World, k: nat)
    requires Inv(w) && k < |w.attempts| && w.attempts[k].stage.Marking? && w.attempts[k].stage.marked >= |w.attempts[k].ids|
    ensures Inv(AfterCommit(w, k))
  {
    if B.Guarded(w.task, B.MarkVerified) { Advanced(w, AfterCommit(w, k), k); } else { RollBackKeeps(w, k, Ousted); }
  }

  lemma {:induction false} WithdrawKeeps(w: World, k: nat)
    requires Inv(w) && k < |w.attempts| && w.attempts[k].stage == Ousted && w.attempts[k].copy.Held?
    ensures Inv(AfterWithdraw(w, k))
  {
    OneMoved(w, AfterWithdraw(w, k), k);
  }

  lemma {:induction false} ReadKeeps(w: World, k: nat)
    requires Inv(w) && k < |w.attempts| && w.attempts[k].stage in {Verifying, Refused, Conflicted, Ousted}
    ensures Inv(AfterRead(w, k))
  {
    Advanced(w, AfterRead(w, k), k);
  }

  lemma {:induction false} WriteBackKeeps(w: World, k: nat)
    requires Inv(w) && k < |w.attempts| && w.attempts[k].stage in {Verifying, Refused, Conflicted} && w.attempts[k].copy.Held?
    ensures Inv(AfterWriteBack(w, k))
  {
    assert HoldsSuccess(w.attempts[k]) ==> SuccessSeen(w);
    Advanced(w, AfterWriteBack(w, k), k);
  }

  lemma {:induction false} OwnSeen(w: World, a: Attempt)
    ensures Own(w, a).task.status == B.Succeeded ==> SuccessSeen(w)
  {}

  lemma {:induction false} PlanKeeps(w: World, k: nat)
    requires Inv(w) && k < |w.attempts| && w.attempts[k].stage == Working
    ensures Inv(AfterPlan(w, k))
  {
    OwnSeen(w, w.attempts[k]);
    Advanced(w, AfterPlan(w, k), k);
  }

  lemma {:induction false} PermissionKeeps(w: World, k: nat)
    requires Inv(w) && k < |w.attempts| && w.attempts[k].stage == Working
    ensures Inv(AfterPermission(w, k))
  {
    Advanced(w, AfterPermission(w, k), k);
  }

  lemma {:induction false} VerifyKeeps(w: World, k: nat)
    requires Inv(w) && k < |w.attempts| && w.attempts[k].stage == Produced
    ensures Inv(AfterStartVerify(w, k))
  {
    Advanced(w, AfterStartVerify(w, k), k);
  }

  lemma {:induction false} VerdictKeeps(w: World, k: nat, pass: bool)
    requires Inv(w) && k < |w.attempts| && w.attempts[k].stage == Verifying
    ensures Inv(AfterVerdict(w, k, pass))
  {
    Advanced(w, AfterVerdict(w, k, pass), k);
  }

  lemma {:induction false} HookKeeps(w: World, k: nat, allow: bool)
    requires Inv(w) && k < |w.attempts| && w.attempts[k].stage == Passed
    ensures Inv(AfterHook(w, k, allow))
  {
    Advanced(w, AfterHook(w, k, allow), k);
  }

  lemma {:induction false} MergeKeeps(w: World, k: nat, conflict: bool)
    requires Inv(w) && k < |w.attempts| && w.attempts[k].stage == Approved
    ensures Inv(AfterMerge(w, k, conflict))
  {
    Advanced(w, AfterMerge(w, k, conflict), k);
  }

  lemma {:induction false} StartKeeps(w: World, k: nat, admitted: bool)
    requires Inv(w) && k < |w.attempts| && w.attempts[k].stage == Claimed
    ensures Inv(AfterStart(w, k, admitted))
  {
    Advanced(w, AfterStart(w, k, admitted), k);
  }

  lemma {:induction false} SendBackKeeps(w: World, k: nat)
    requires Inv(w) && k < |w.attempts| && w.attempts[k].stage == Returning
    ensures Inv(AfterSendBack(w, k))
  {
    Advanced(w, AfterSendBack(w, k), k);
  }

  lemma {:induction false} FailKeeps(w: World, k: nat, report: B.Event)
    requires Inv(w) && k < |w.attempts| && CanRaise(w.attempts[k]) && report.Fail? && report.agent == w.attempts[k].agent
    ensures Inv(AfterFail(w, k, report))
  {
    Advanced(w, AfterFail(w, k, report), k);
  }

  lemma {:induction false} ReleaseKeeps(w: World, k: nat)
    requires Inv(w) && k < |w.attempts| && w.attempts[k].stage == Working
    ensures Inv(AfterRelease(w, k))
  {
    Advanced(w, AfterRelease(w, k), k);
  }

  lemma {:induction false} RetireKeeps(w: World, k: nat)
    requires Inv(w) && k < |w.attempts| && w.attempts[k].stage == Closing
    ensures Inv(At(w, k, Done))
  {
    Advanced(w, At(w, k, Done), k);
  }

  /** Every step of an attempt, the operator or another claimant keeps the evidence in order. */
  lemma {:induction false} StepKeeps(w: World, e: Event)
    requires Inv(w) && Enabled(w, e)
    ensures Inv(Step(w, e))
  {
    match e
    case Claim(agent) => ClaimKeeps(w, agent);
    case Outside(o) => OutsideKeeps(w, o);
    case Start(k, admitted) => StartKeeps(w, k, admitted);
    case SubmitPlan(k) => PlanKeeps(w, k);
    case Produce(k, ids) => ProduceKeeps(w, k, ids);
    case StartVerify(k) => VerifyKeeps(w, k);
    case Read(k) => ReadKeeps(w, k);
    case WriteBack(k) => WriteBackKeeps(w, k);
    case Verdict(k, pass) => VerdictKeeps(w, k, pass);
    case Hook(k, allow) => HookKeeps(w, k, allow);
    case Merge(k, conflict) => MergeKeeps(w, k, conflict);
    case MarkNext(k, found) => MarkKeeps(w, k, found);
    case Commit(k) => CommitKeeps(w, k);
    case SendBack(k) => SendBackKeeps(w, k);
    case Withdraw(k) => WithdrawKeeps(w, k);
    case Fail(k, retryable, rateLimited, retryAt) => FailKeeps(w, k, B.Fail(w.attempts[k].agent, retryable, rateLimited, retryAt));
    case Release(k) => ReleaseKeeps(w, k);
    case AwaitPermission(k) => PermissionKeeps(w, k);
    case Retire(k) => RetireKeeps(w, k);
  }

  // ----- Whole runs -----

  /** Plays the events that can happen where they stand; the others are skipped. */
  function Play(w: World, events: seq<Event>): World
    decreases |events|
  {
    if |events| == 0 then w
    else Play(if Enabled(w, events[0]) then Step(w, events[0]) else w, events[1..])
  }

  function Initial(t: B.Task): World {
    World(t, {}, [], map[], [])
  }

  lemma {:induction false} PlayKeeps(w: World, events: seq<Event>)
    requires Inv(w)
    ensures Inv(Play(w, events))
    decreases |events|
  {
    if |events| > 0 {
      if Enabled(w, events[0]) { StepKeeps(w, events[0]); }
      PlayKeeps(if Enabled(w, events[0]) then Step(w, events[0]) else w, events[1..]);
    }
  }

  /** Over every run: an attempt that has told the board its last word and has a verified artifact is one whose
      task succeeded by it, after the verifier, the hook and the merge; and where a task, or a copy of it that
      waits to be written back, has succeeded there is such an attempt. */
  lemma {:induction false} EvidenceOverRuns(t: B.Task, events: seq<Event>)
    requires t.status == B.Pending
    ensures var w := Play(Initial(t), events);
            && (forall k, i | 0 <= k < |w.attempts| && 0 <= i < |w.attempts[k].ids| ::
                  !w.attempts[k].stage.Marking? && w.attempts[k].ids[i] in w.marks && w.marks[w.attempts[k].ids[i]] == Verified
                  ==> w.attempts[k].won && Judged(w.attempts[k]) && AllVerified(w.attempts[k], w.marks))
            && (SuccessSeen(w) ==>
                  exists k :: 0 <= k < |w.attempts| && w.attempts[k].won && Judged(w.attempts[k]) && AllVerified(w.attempts[k], w.marks))
  {
    PlayKeeps(Initial(t), events);
    var w := Play(Initial(t), events);
    if SuccessSeen(w) {
      var k :| 0 <= k < |w.attempts| && w.attempts[k].won;
      assert Judged(w.attempts[k]) && AllVerified(w.attempts[k], w.marks);
    }
  }

  // ----- The row of a worker -----

  /** While its worker runs, the row of an attempt belongs to that attempt or to nobody, and nothing is handed in. */
  ghost predicate Tended(a: Attempt, own: Row) {
    && own.task.claimedBy in {None, Some(a.agent)}
    && own.task.status !in {B.Produced, B.Verifying, B.Succeeded, B.RepairRequired}
  }

  ghost predicate Apiece(w: World) {
    forall i, j | 0 <= i < j < |w.attempts| && w.attempts[i].stage != Done && w.attempts[j].stage != Done ::
      w.attempts[i].agent != w.attempts[j].agent
  }

  ghost predicate TendedAt(w: World, i: nat)
    requires i < |w.attempts|
  {
    w.attempts[i].stage in {Claimed, Working} ==> w.attempts[i].slot <= |w.replaced| && Tended(w.attempts[i], Own(w, w.attempts[i]))
  }

  /** An agent works at one attempt at a time, and every worker's row is its own. */
  ghost predicate OwnInv(w: World) {
    Apiece(w) && forall i | 0 <= i < |w.attempts| :: TendedAt(w, i)
  }

  /** Another row takes the place of the one in force: the rows of the workers stay as they are. */
  lemma {:induction false} PutTends(w: World, next: World, i: nat)
    requires i < |w.attempts| && i < |next.attempts| && next.attempts[i] == w.attempts[i] && TendedAt(w, i)
    requires next.replaced == w.replaced + [Current(w)]
    ensures TendedAt(next, i)
  {}

  lemma {:induction false} OneApiece(w: World, next: World, k: nat)
    requires Apiece(w) && k < |w.attempts| == |next.attempts| && next.attempts == w.attempts[k := next.attempts[k]]
    requires next.attempts[k].agent == w.attempts[k].agent && w.attempts[k].stage != Done
    ensures Apiece(next)
  {}

  /** The steps by which evidence is handed in, judged, marked or withdrawn. */
  predicate Judgement(e: Event) {
    e.Produce? || e.StartVerify? || e.Verdict? || e.Hook? || e.Merge? || e.MarkNext? || e.Commit? || e.Withdraw?
  }

  /** Attempt k moved on and no other: it keeps its agent, wins by its commit and gets its artifacts when it hands them in. */
  ghost predicate MovedBy(w: World, e: Event, next: World)
    requires Enabled(w, e) && !e.Claim? && !e.Outside?
  {
    && |next.attempts| == |w.attempts| && next.attempts == w.attempts[e.k := next.attempts[e.k]]
    && w.attempts[e.k].stage != Done
    && var a, b := w.attempts[e.k], next.attempts[e.k];
       && b.agent == a.agent && (!e.Produce? ==> b.ids == a.ids)
       && b.won == (a.won || (e.Commit? && B.Guarded(w.task, B.MarkVerified)))
       && (!e.Start? && !e.SubmitPlan? ==> b.stage !in {Claimed, Working})
  }

  lemma {:induction false} VerdictMoves(w: World, e: Event)
    requires Enabled(w, e) && (e.Produce? || e.StartVerify? || e.Verdict? || e.Hook?)
    ensures MovedBy(w, e, Step(w, e))
  {}

  lemma {:induction false} MarkMoves(w: World, e: Event)
    requires Enabled(w, e) && (e.Merge? || e.MarkNext? || e.Commit? || e.Withdraw?)
    ensures MovedBy(w, e, Step(w, e))
  {}

  lemma {:induction false} RowMoves(w: World, e: Event)
    requires Enabled(w, e) && (e.Read? || e.WriteBack? || e.SubmitPlan? || e.AwaitPermission?)
    ensures MovedBy(w, e, Step(w, e))
  {}

  lemma {:induction false} EndMoves(w: World, e: Event)
    requires Enabled(w, e) && (e.Start? || e.SendBack? || e.Fail? || e.Release? || e.Retire?)
    ensures MovedBy(w, e, Step(w, e))
  {}

  lemma {:induction false} MovedOn(w: World, e: Event)
    requires Enabled(w, e) && !e.Claim? && !e.Outside?
    ensures MovedBy(w, e, Step(w, e))
  {
    if e.Produce? || e.StartVerify? || e.Verdict? || e.Hook? { VerdictMoves(w, e); }
    else if Judgement(e) { MarkMoves(w, e); }
    else if e.Read? || e.WriteBack? || e.SubmitPlan? || e.AwaitPermission? { RowMoves(w, e); }
    else { EndMoves(w, e); }
  }

  /** The compare-and-set operation a step tries on the row in force. */
  function Op(w: World, e: Event): Option<B.Event>
    requires Enabled(w, e)
  {
    match e
    case Start(k, admitted) =>
      var agent := w.attempts[k].agent;
      Some(if admitted && B.Guarded(w.task, B.Start(agent)) then B.Start(agent) else B.Release(agent))
    case Produce(k, _) => Some(B.MarkProduced(w.attempts[k].agent))
    case StartVerify(_) => Some(B.MarkVerifying)
    case Commit(_) => Some(B.MarkVerified)
    case SendBack(_) => Some(B.MarkRepairRequired)
    case Fail(k, retryable, rateLimited, retryAt) => Some(B.Fail(w.attempts[k].agent, retryable, rateLimited, retryAt))
    case Release(k) => Some(B.Release(w.attempts[k].agent))
    case Outside(o) => Some(o)
    case _ => None
  }

  /** The row a step puts into the place of the one in force, or leaves there. */
  function RowPut(w: World, e: Event): B.Task
    requires Enabled(w, e)
  {
    if e.WriteBack? then WrittenBack(w.attempts[e.k]).task
    else if e.SubmitPlan? then Own(w, w.attempts[e.k]).task
    else if e.AwaitPermission? then Own(w, w.attempts[e.k]).task.(status := B.Blocked)
    else w.task
  }

  /** The task on the board after the step: the operation was tried, or a row was put. */
  ghost predicate TaskBy(w: World, e: Event, next: World)
    requires Enabled(w, e)
  {
    && next.task == (if e.Claim? then Tried(w.task, B.Claim(e.agent))
                     else if Op(w, e).Some? then Tried(w.task, Op(w, e).value)
                     else RowPut(w, e))
    && next.replaced in {w.replaced, w.replaced + [Current(w)]}
    && (Op(w, e).Some? ==> next.replaced == w.replaced)
  }

  lemma {:induction false} JudgementTask(w: World, e: Event)
    requires Enabled(w, e) && Judgement(e)
    ensures TaskBy(w, e, Step(w, e))
  {}

  lemma {:induction false} OtherTask(w: World, e: Event)
    requires Enabled(w, e) && !Judgement(e)
    ensures TaskBy(w, e, Step(w, e))
  {}

  lemma {:induction false} StepTask(w: World, e: Event)
    requires Enabled(w, e)
    ensures TaskBy(w, e, Step(w, e))
  {
    if Judgement(e) { JudgementTask(w, e); } else { OtherTask(w, e); }
  }

  /** What the row records after the step. */
  lemma {:induction false} StepProduced(w: World, e: Event)
    requires Enabled(w, e)
    ensures Step(w, e).produced ==
            if e.WriteBack? then WrittenBack(w.attempts[e.k]).produced
            else if e.SubmitPlan? || e.AwaitPermission? then Own(w, w.attempts[e.k]).produced
            else if e.Produce? && B.Guarded(w.task, B.MarkProduced(w.attempts[e.k].agent)) then IdSet(e.ids)
            else w.produced
  {}

  lemma {:induction false} OpTends(a: Attempt, own: Row, op: B.Event, produced: set<ArtifactId>)
    requires Tended(a, own) && !op.WriteBack? && !op.Claim? && !op.Create?
    requires op.Start? || op.Release? || op.MarkProduced? || op.Fail? ==> op.agent != a.agent
    ensures Tended(a, Row(Tried(own.task, op), produced))
  {}

  /** No step of another attempt, and none of the operator, takes the row of a worker further. */
  lemma {:induction false} StepTends(w: World, e: Event, i: nat)
    requires OwnInv(w) && Enabled(w, e) && i < |w.attempts| && (e.Claim? || e.Outside? || e.k != i)
    ensures i < |Step(w, e).attempts| && TendedAt(Step(w, e), i)
  {
    var next, a := Step(w, e), w.attempts[i];
    OthersAre(w, e, i);
    StepTask(w, e);
    assert TendedAt(w, i);
    if |next.replaced| > |w.replaced| {
      PutTends(w, next, i);
    } else if a.stage in {Claimed, Working} && a.slot == |w.replaced| {
      if Op(w, e).Some? {
        assert e.Outside? || w.attempts[e.k].agent != a.agent;
        OpTends(a, Current(w), Op(w, e).value, next.produced);
      }
    }
  }

  lemma {:induction false} OthersAre(w: World, e: Event, i: nat)
    requires Enabled(w, e) && i < |w.attempts| && (e.Claim? || e.Outside? || e.k != i)
    ensures i < |Step(w, e).attempts| && Step(w, e).attempts[i] == w.attempts[i]
  {
    if !e.Claim? && !e.Outside? { MovedOn(w, e); }
  }

  lemma {:induction false} StepOwn(w: World, e: Event)
    requires OwnInv(w) && Enabled(w, e) && (e.Start? || e.SubmitPlan?)
    ensures e.k < |Step(w, e).attempts| && TendedAt(Step(w, e), e.k)
  {
    assert TendedAt(w, e.k);
  }

  lemma {:induction false} ClaimOwn(w: World, e: Event)
    requires OwnInv(w) && Enabled(w, e) && e.Claim?
    ensures Apiece(Step(w, e)) && forall i | |w.attempts| <= i < |Step(w, e).attempts| :: TendedAt(Step(w, e), i)
  {
    var next := Step(w, e);
    assert forall i | 0 <= i < |w.attempts| :: next.attempts[i] == w.attempts[i];
  }

  lemma {:induction false} OwnStepKeeps(w: World, e: Event)
    requires OwnInv(w) && Enabled(w, e)
    ensures OwnInv(Step(w, e))
  {
    var next := Step(w, e);
    if e.Claim? {
      ClaimOwn(w, e);
    } else if !e.Outside? {
      MovedOn(w, e);
      OneApiece(w, next, e.k);
      if e.Start? || e.SubmitPlan? { StepOwn(w, e); }
    }
    forall i | 0 <= i < |w.attempts| && (e.Claim? || e.Outside? || e.k != i) ensures i < |next.attempts| && TendedAt(next, i) {
      StepTends(w, e, i);
    }
  }

  lemma {:induction false} OwnPlayKeeps(w: World, events: seq<Event>)
    requires OwnInv(w)
    ensures OwnInv(Play(w, events))
    decreases |events|
  {
    if |events| > 0 {
      if Enabled(w, events[0]) { OwnStepKeeps(w, events[0]); }
      OwnPlayKeeps(if Enabled(w, events[0]) then Step(w, events[0]) else w, events[1..]);
    }
  }

  // ----- How a task succeeds -----

  /** The last step of an attempt that was judged well and whose artifacts are all verified. */
  ghost predicate Commits(w: World, e: Event) {
    && e.Commit? && e.k < |w.attempts| && Judged(w.attempts[e.k]) && AllVerified(w.attempts[e.k], w.marks)
    && w.task.status in {B.Produced, B.Verifying}
  }

  /** The write-back, after a verdict or a blocking hook, of a copy read while the task had succeeded. */
  ghost predicate Restores(w: World, e: Event) {
    e.WriteBack? && e.k < |w.attempts| && w.attempts[e.k].stage != Conflicted && HoldsSuccess(w.attempts[e.k])
  }

  /** A task succeeds by these two steps and no other. */
  lemma {:induction false} SucceedsExactly(w: World, e: Event)
    requires Inv(w) && OwnInv(w) && Enabled(w, e) && w.task.status != B.Succeeded
    ensures Step(w, e).task.status == B.Succeeded <==> Commits(w, e) || Restores(w, e)
    ensures Restores(w, e) ==> SomeWon(w)
  {
    StepTask(w, e);
    if e.Claim? {
      OpSucceeds(w.task, B.Claim(e.agent));
    } else if Op(w, e).Some? {
      OpSucceeds(w.task, Op(w, e).value);
      if e.Commit? { assert AttemptOk(w.attempts[e.k], w.marks); }
    } else if e.SubmitPlan? {
      assert TendedAt(w, e.k);
    }
  }

  lemma {:induction false} OpSucceeds(t: B.Task, op: B.Event)
    requires t.status != B.Succeeded && !op.WriteBack? && !op.Create?
    ensures Tried(t, op).status == B.Succeeded <==> op.MarkVerified? && t.status in {B.Produced, B.Verifying}
  {}

  /** In every reachable state. */
  lemma {:induction false} SuccessOverRuns(t: B.Task, events: seq<Event>, e: Event)
    requires t.status == B.Pending
    ensures var w := Play(Initial(t), events);
            Enabled(w, e) && w.task.status != B.Succeeded ==>
              (Step(w, e).task.status == B.Succeeded <==> Commits(w, e) || Restores(w, e))
  {
    PlayKeeps(Initial(t), events);
    OwnPlayKeeps(Initial(t), events);
    var w := Play(Initial(t), events);
    if Enabled(w, e) && w.task.status != B.Succeeded { SucceedsExactly(w, e); }
  }
}
