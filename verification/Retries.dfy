/**
 When a retry by the operator is safe, and runs in which the operator does not wait.
 */
module Retries {
  import opened Basics
  import B = TaskBoard
  import opened Evidence
  import opened Agreement
  import opened CalmRuns

  /** v is reached from w by the steps of attempts and an operator who from here on retries only while no attempt
      is being judged. */
  ghost predicate Reaches(w: World, v: World) {
    exists events: seq<Event> :: CalmRun(w, events) && Play(w, events) == v
  }

  lemma {:induction false} ReachNone(w: World)
    ensures Reaches(w, w)
  {
    assert CalmRun(w, []) && Play(w, []) == w;
  }

  lemma {:induction false} ReachFirst(w: World, e: Event, next: World, v: World)
    requires Enabled(w, e) && Calm(w, e) && next == Step(w, e) && Reaches(next, v)
    ensures Reaches(w, v)
  {
    var events: seq<Event> :| CalmRun(next, events) && Play(next, events) == v;
    var more := [e] + events;
    assert more[0] == e && more[1..] == events;
    assert CalmRun(w, more) && Play(w, more) == v;
  }

  /** What can be reached from v can be reached from w. */
  ghost predicate Before(w: World, v: World) {
    forall u | Reaches(v, u) :: Reaches(w, u)
  }

  lemma {:induction false} BeforeStep(w: World, e: Event, next: World)
    requires Enabled(w, e) && Calm(w, e) && next == Step(w, e)
    ensures Before(w, next)
  {
    forall u | Reaches(next, u) ensures Reaches(w, u) { ReachFirst(w, e, next, u); }
  }

  // ----- An attempt that finishes -----

  /** The attempt may still complete the task. */
  predicate Handing(stage: Stage) {
    Judging(stage) && stage !in {Refused, Conflicted}
  }

  /** The row lets attempt k finish, and records these artifacts of others. */
  ghost predicate Open(w: World, k: nat, r: Row, alien: set<ArtifactId>)
    requires k < |w.attempts|
  {
    && (if w.attempts[k].stage == Produced then r.task.status == B.Produced else r.task.status in {B.Produced, B.Verifying})
    && alien <= r.produced
  }

  /** Attempt k can still finish, while the board records artifacts that are not its own. */
  ghost predicate CanFinish(w: World, k: nat, alien: set<ArtifactId>) {
    && k < |w.attempts| && Handing(w.attempts[k].stage) && Open(w, k, Current(w), alien)
    && (w.attempts[k].stage == Verifying && w.attempts[k].copy.Held? ==> Open(w, k, w.attempts[k].copy.row, alien))
    && forall x | x in alien :: x in w.marks && w.marks[x] == Unjudged && x !in IdSet(w.attempts[k].ids)
  }

  /** The next step of an attempt when all goes well. */
  function NextStep(a: Attempt, k: nat): Event {
    match a.stage
    case Produced => StartVerify(k)
    case Verifying => if a.copy == Unread then Read(k) else if a.copy.Held? then WriteBack(k) else Verdict(k, true)
    case Passed => Hook(k, true)
    case Approved => Merge(k, false)
    case _ => if a.stage.Marking? && a.stage.marked < |a.ids| then MarkNext(k, true) else Commit(k)
  }

  function StepsLeft(a: Attempt): nat {
    match a.stage
    case Produced => |a.ids| + 7
    case Verifying => |a.ids| + if a.copy == Unread then 6 else if a.copy.Held? then 5 else 4
    case Passed => |a.ids| + 3
    case Approved => |a.ids| + 2
    case Marking(n) => if n < |a.ids| then |a.ids| - n + 1 else 1
    case _ => 0
  }

  /** The task has succeeded by attempt k, on a row that records unjudged artifacts, and no other attempt moved. */
  ghost predicate Finished(w: World, v: World, k: nat, alien: set<ArtifactId>) {
    && v.task.status == B.Succeeded && k < |w.attempts| == |v.attempts| && v.attempts == w.attempts[k := v.attempts[k]]
    && alien <= v.produced && forall x | x in alien :: x in v.marks && v.marks[x] == Unjudged
  }

  /** One step nearer to the end. */
  ghost predicate Nearer(w: World, v: World, k: nat, alien: set<ArtifactId>) {
    && CanFinish(v, k, alien) && |v.attempts| == |w.attempts| && v.attempts == w.attempts[k := v.attempts[k]]
    && StepsLeft(v.attempts[k]) < StepsLeft(w.attempts[k])
  }

  lemma {:induction false} NearerVerify(w: World, k: nat, alien: set<ArtifactId>)
    requires CanFinish(w, k, alien) && w.attempts[k].stage == Produced
    ensures Nearer(w, AfterStartVerify(w, k), k, alien)
  {}

  lemma {:induction false} NearerRead(w: World, k: nat, alien: set<ArtifactId>)
    requires CanFinish(w, k, alien) && w.attempts[k].stage == Verifying && w.attempts[k].copy == Unread
    ensures Nearer(w, AfterRead(w, k), k, alien)
  {}

  lemma {:induction false} NearerWrite(w: World, k: nat, alien: set<ArtifactId>)
    requires CanFinish(w, k, alien) && w.attempts[k].stage == Verifying && w.attempts[k].copy.Held?
    ensures Nearer(w, AfterWriteBack(w, k), k, alien)
  {}

  lemma {:induction false} NearerJudge(w: World, k: nat, alien: set<ArtifactId>)
    requires CanFinish(w, k, alien)
    ensures w.attempts[k].stage == Verifying && w.attempts[k].copy == Returned ==> Nearer(w, AfterVerdict(w, k, true), k, alien)
    ensures w.attempts[k].stage == Passed ==> Nearer(w, AfterHook(w, k, true), k, alien)
    ensures w.attempts[k].stage == Approved ==> Nearer(w, AfterMerge(w, k, false), k, alien)
  {}

  lemma {:induction false} NearerMark(w: World, k: nat, alien: set<ArtifactId>)
    requires CanFinish(w, k, alien) && w.attempts[k].stage.Marking? && w.attempts[k].stage.marked < |w.attempts[k].ids|
    ensures Nearer(w, AfterMark(w, k, true), k, alien)
  {
    var a := w.attempts[k];
    assert a.ids[a.stage.marked] in IdSet(a.ids);
  }

  lemma {:induction false} LastStep(w: World, k: nat, alien: set<ArtifactId>)
    requires CanFinish(w, k, alien) && w.attempts[k].stage.Marking? && w.attempts[k].stage.marked >= |w.attempts[k].ids|
    ensures Finished(w, AfterCommit(w, k), k, alien)
  {}

  lemma {:induction false} NextIsEnabled(w: World, k: nat, alien: set<ArtifactId>)
    requires CanFinish(w, k, alien)
    ensures var e := NextStep(w.attempts[k], k); Enabled(w, e) && Calm(w, e)
  {}

  lemma {:induction false} NextStepIs(w: World, k: nat, alien: set<ArtifactId>)
    requires CanFinish(w, k, alien) && Enabled(w, NextStep(w.attempts[k], k))
    ensures var e := NextStep(w.attempts[k], k);
            if e.Commit? then Finished(w, Step(w, e), k, alien) else Nearer(w, Step(w, e), k, alien)
  {
    match NextStep(w.attempts[k], k)
    case StartVerify(_) => NearerVerify(w, k, alien);
    case Read(_) => NearerRead(w, k, alien);
    case WriteBack(_) => NearerWrite(w, k, alien);
    case MarkNext(_, _) => NearerMark(w, k, alien);
    case Commit(_) => LastStep(w, k, alien);
    case _ => NearerJudge(w, k, alien);
  }

  /** Such an attempt can complete the task. */
  lemma {:induction false} Finishes(w: World, k: nat, alien: set<ArtifactId>)
    requires CanFinish(w, k, alien)
    ensures exists v :: Reaches(w, v) && Finished(w, v, k, alien)
    decreases StepsLeft(w.attempts[k])
  {
    var e := NextStep(w.attempts[k], k);
    NextIsEnabled(w, k, alien);
    NextStepIs(w, k, alien);
    var next := Step(w, e);
    BeforeStep(w, e, next);
    if e.Commit? {
      ReachNone(next);
      assert Reaches(w, next);
    } else {
      Finishes(next, k, alien);
      var v :| Reaches(next, v) && Finished(next, v, k, alien);
      assert Reaches(w, v) && Finished(w, v, k, alien);
    }
  }

  lemma {:induction false} FinishedIsUnsound(w: World, v: World, k: nat, x: ArtifactId)
    requires Finished(w, v, k, {x})
    ensures !Sound(v)
  {
    assert x in v.produced && v.marks[x] == Unjudged;
  }

  // ----- A retry while an attempt is being judged -----

  /** A free agent takes a waiting task and hands in a new artifact; the attempts before it stay where they are. */
  lemma {:induction false} TakesOver(w: World, b: AgentId, x: ArtifactId) returns (v: World)
    requires Enabled(w, Claim(b)) && x !in w.marks && w.task.status == B.Pending
    ensures v.attempts == w.attempts + [Fresh(b, |w.replaced| + 1).(ids := [x], stage := Produced)]
    ensures v.marks == w.marks[x := Unjudged] && v.produced == {x} && v.task.status == B.Produced
    ensures Before(w, v)
  {
    var w1 := Claims(w, b);
    var w2 := Starts(w1, |w.attempts|);
    v := HandsIn(w2, |w.attempts|, x);
    assert v.attempts == w.attempts + [Fresh(b, |w.replaced| + 1).(ids := [x], stage := Produced)];
  }

  lemma {:induction false} Claims(w: World, b: AgentId) returns (v: World)
    requires Enabled(w, Claim(b)) && w.task.status == B.Pending
    ensures v.attempts == w.attempts + [Fresh(b, |w.replaced| + 1)] && v.marks == w.marks
    ensures v.task.status == B.Claimed && v.task.claimedBy == Some(b)
    ensures Before(w, v)
  {
    v := AfterClaim(w, b);
    BeforeStep(w, Claim(b), v);
  }

  lemma {:induction false} HandsIn(w: World, n: nat, x: ArtifactId) returns (v: World)
    requires n < |w.attempts| && w.attempts[n].stage == Working && w.task.status == B.Running
    requires w.task.claimedBy == Some(w.attempts[n].agent) && x !in w.marks && w.attempts[n].copy == Unread
    ensures v.attempts == w.attempts[n := w.attempts[n].(ids := [x], stage := Produced)]
    ensures v.marks == w.marks[x := Unjudged] && v.produced == {x} && v.task.status == B.Produced
    ensures Before(w, v)
  {
    v := AfterProduce(w, n, [x]);
    assert IdSet([x]) == {x};
    BeforeStep(w, Produce(n, [x]), v);
  }

  lemma {:induction false} Starts(w: World, n: nat) returns (v: World)
    requires n < |w.attempts| && w.attempts[n].stage == Claimed && w.task.status == B.Claimed
    requires w.task.claimedBy == Some(w.attempts[n].agent) && w.attempts[n].copy == Unread
    ensures v.attempts == w.attempts[n := w.attempts[n].(stage := Working)] && v.marks == w.marks
    ensures v.task.status == B.Running && v.task.claimedBy == w.task.claimedBy
    ensures Before(w, v)
  {
    v := AfterStart(w, n, true);
    BeforeStep(w, Start(n, true), v);
  }

  /** The verifier of attempt n reads the row. */
  lemma {:induction false} ReadsRow(w: World, n: nat) returns (v: World)
    requires n < |w.attempts| && w.attempts[n].stage == Produced && w.task.status == B.Produced
    ensures v == w.(task := w.task.(status := B.Verifying), attempts := v.attempts)
    ensures v.attempts == w.attempts[n := w.attempts[n].(stage := Verifying, copy := Held(Current(v)))]
    ensures Before(w, v)
  {
    var u := AfterStartVerify(w, n);
    BeforeStep(w, StartVerify(n), u);
    v := AfterRead(u, n);
    BeforeStep(u, Read(n), v);
  }

  lemma {:induction false} WritesRow(w: World, k: nat) returns (v: World)
    requires k < |w.attempts| && w.attempts[k].stage == Verifying && w.attempts[k].copy.Held?
    ensures v.task == w.attempts[k].copy.row.task && v.produced == w.attempts[k].copy.row.produced && v.marks == w.marks
    ensures v.attempts == w.attempts[k := w.attempts[k].(copy := Returned)]
    ensures Before(w, v)
  {
    v := AfterWriteBack(w, k);
    BeforeStep(w, WriteBack(k), v);
  }

  /** A stale copy that attempt k puts back is overwritten by the fresh copy of attempt n. */
  lemma {:induction false} Overwrites(w: World, n: nat, k: nat, x: ArtifactId)
    requires n < |w.attempts| && w.attempts[n].stage == Produced && w.task.status == B.Produced && w.produced == {x}
    requires k < |w.attempts| && k != n && w.attempts[k].stage == Verifying && w.attempts[k].copy.Held?
    requires x in w.marks && w.marks[x] == Unjudged && x !in IdSet(w.attempts[k].ids)
    ensures exists v :: Reaches(w, v) && !Sound(v)
  {
    var w1 := ReadsRow(w, n);
    var w2 := WritesRow(w1, k);
    var w3 := WritesRow(w2, n);
    assert w3.attempts[k] == w.attempts[k].(copy := Returned);
    Finishes(w3, k, {x});
    var v :| Reaches(w3, v) && Finished(w3, v, k, {x});
    FinishedIsUnsound(w3, v, k, x);
    assert Reaches(w2, v);
    assert Reaches(w1, v);
  }

  /** The attempt that was being judged finishes, and the task succeeds on the new artifact, unverified. */
  lemma {:induction false} Overtakes(w: World, k: nat, b: AgentId, x: ArtifactId)
    requires Enabled(w, Claim(b)) && x !in w.marks && w.task.status == B.Pending
    requires k < |w.attempts| && Handing(w.attempts[k].stage) && x !in IdSet(w.attempts[k].ids)
    ensures exists v :: Reaches(w, v) && !Sound(v)
  {
    var u := TakesOver(w, b, x);
    assert u.attempts[k] == w.attempts[k];
    if u.attempts[k].stage == Verifying && u.attempts[k].copy.Held? {
      Overwrites(u, |w.attempts|, k, x);
      var v :| Reaches(u, v) && !Sound(v);
      assert Reaches(w, v);
    } else {
      Finishes(u, k, {x});
      var v :| Reaches(u, v) && Finished(u, v, k, {x});
      FinishedIsUnsound(u, v, k, x);
    }
  }

  lemma {:induction false} NotItsOwn(w: World, k: nat, x: ArtifactId)
    requires Inv(w) && k < |w.attempts| && x !in w.marks
    ensures x !in IdSet(w.attempts[k].ids)
  {
    assert AttemptOk(w.attempts[k], w.marks);
  }

  /** In every reachable state: a retry while no attempt is being judged, or holds a copy to write back, is safe. */
  lemma {:induction false} RetryIsSafe(w: World, v: World)
    requires Inv(w) && OwnInv(w) && B.Guarded(w.task, B.Retry)
    requires forall k | 0 <= k < |w.attempts| :: !Judging(w.attempts[k].stage)
    requires Reaches(Step(w, Outside(B.Retry)), v)
    ensures Sound(v)
  {
    var e := Outside(B.Retry);
    var next := Step(w, e);
    StepKeeps(w, e);
    OwnStepKeeps(w, e);
    assert forall i | 0 <= i < |next.attempts| :: Stale(next, next.attempts[i]);
    var events: seq<Event> :| CalmRun(next, events) && Play(next, events) == v;
    CalmPlayKeeps(next, events);
    FoundedIsSound(v);
  }

  /** In every reachable state a retry lets the task succeed on an unverified artifact, however careful the operator
      is from then on, if an attempt can still complete the task, and only if an attempt is being judged at all; b is
      a free agent and x a new artifact. */
  lemma {:induction false} RetryIsSafeExactly(w: World, b: AgentId, x: ArtifactId)
    requires Inv(w) && OwnInv(w) && B.Guarded(w.task, B.Retry)
    requires Enabled(w, Claim(b)) && x !in w.marks
    ensures var next := Step(w, Outside(B.Retry));
            && ((exists k :: 0 <= k < |w.attempts| && Handing(w.attempts[k].stage)) ==> exists v :: Reaches(next, v) && !Sound(v))
            && ((exists v :: Reaches(next, v) && !Sound(v)) ==> exists k :: 0 <= k < |w.attempts| && Judging(w.attempts[k].stage))
  {
    var e := Outside(B.Retry);
    var next := Step(w, e);
    if k: nat :| k < |w.attempts| && Handing(w.attempts[k].stage) {
      NotItsOwn(w, k, x);
      Overtakes(next, k, b, x);
    }
    if v :| Reaches(next, v) && !Sound(v) {
      if forall k | 0 <= k < |w.attempts| :: !Judging(w.attempts[k].stage) {
        RetryIsSafe(w, v);
      }
    }
  }

  /** A blocking hook's write-back is enough: it makes the task wait again while a second attempt has handed in, a
      third one replaces what the row records, and the second completes the task. */
  lemma {:induction false} RetryDuringFeedback(w: World, k: nat, b: AgentId, c: AgentId, x: ArtifactId, y: ArtifactId)
    requires B.Guarded(w.task, B.Retry) && k < |w.attempts| && w.attempts[k].stage == Refused && w.attempts[k].copy == Unread
    requires Enabled(w, Claim(b)) && Enabled(w, Claim(c)) && b != c && x !in w.marks && y !in w.marks && x != y
    ensures exists v :: Reaches(Tell(w, B.Retry), v) && !Sound(v)
  {
    var w0 := Tell(w, B.Retry);
    var w1 := AfterRead(w0, k);
    BeforeStep(w0, Read(k), w1);
    FeedbackOvertakes(w1, k, b, c, x, y);
    var v :| Reaches(w1, v) && !Sound(v);
  }

  lemma {:induction false} FeedbackOvertakes(w: World, k: nat, b: AgentId, c: AgentId, x: ArtifactId, y: ArtifactId)
    requires k < |w.attempts| && w.attempts[k].stage == Refused && w.attempts[k].copy == Held(Current(w)) && w.task.status == B.Pending
    requires Enabled(w, Claim(b)) && Enabled(w, Claim(c)) && b != c && x !in w.marks && y !in w.marks && x != y
    ensures exists v :: Reaches(w, v) && !Sound(v)
  {
    var n := |w.attempts|;
    var w2 := TakesOver(w, b, x);
    assert w2.attempts[k] == w.attempts[k];
    var w3 := WaitsAgain(w2, k);
    assert w3.attempts[n] == w2.attempts[n];
    Overtakes(w3, n, c, y);
    var v :| Reaches(w3, v) && !Sound(v);
    assert Reaches(w2, v);
  }

  lemma {:induction false} WaitsAgain(w: World, k: nat) returns (v: World)
    requires k < |w.attempts| && w.attempts[k].stage == Refused && w.attempts[k].copy.Held?
    ensures v.task == w.attempts[k].copy.row.task && v.marks == w.marks
    ensures v.attempts == w.attempts[k := w.attempts[k].(stage := Returning, copy := Unread)]
    ensures Before(w, v)
  {
    v := AfterWriteBack(w, k);
    BeforeStep(w, WriteBack(k), v);
  }

  // ----- Runs from a fresh task -----

  /** v comes after w in some run. */
  ghost predicate Leads(w: World, v: World) {
    exists events: seq<Event> :: Play(w, events) == v
  }

  lemma {:induction false} PlayJoin(w: World, events: seq<Event>, more: seq<Event>)
    ensures Play(w, events + more) == Play(Play(w, events), more)
    decreases |events|
  {
    if |events| == 0 {
      assert events + more == more;
    } else {
      assert (events + more)[0] == events[0] && (events + more)[1..] == events[1..] + more;
      PlayJoin(if Enabled(w, events[0]) then Step(w, events[0]) else w, events[1..], more);
    }
  }

  lemma {:induction false} LeadsOn(w: World, u: World, v: World)
    requires Leads(w, u) && (Leads(u, v) || Reaches(u, v))
    ensures Leads(w, v)
  {
    var events: seq<Event> :| Play(w, events) == u;
    var more: seq<Event> :| Play(u, more) == v;
    PlayJoin(w, events, more);
  }

  lemma {:induction false} LeadsStep(w: World, u: World, e: Event, v: World)
    requires Leads(w, u) && Enabled(u, e) && v == Step(u, e)
    ensures Leads(w, v)
  {
    assert [e][1..] == [];
    assert Play(u, [e]) == v;
    LeadsOn(w, u, v);
  }

  lemma {:induction false} LeadsOutside(w: World, u: World, o: B.Event)
    requires Leads(w, u) && (o.Cancel? || o.Retry? || o.RequestReplan?)
    ensures Leads(w, Tell(u, o))
  {
    LeadsStep(w, u, Outside(o), Tell(u, o));
  }

  /** From a fresh task to an attempt of a that has handed in an artifact. */
  lemma {:induction false} HandedIn(t: B.Task, a: AgentId) returns (v: World)
    requires t.status == B.Pending
    ensures Leads(Initial(t), v) && v.attempts == [Fresh(a, 1).(ids := ["old"], stage := Produced)]
    ensures v.task.status == B.Produced && "new" !in v.marks
  {
    v := TakesOver(Initial(t), a, "old");
    ReachNone(v);
  }

  /** The operator asks for a new plan and retries while the artifact is not judged. */
  lemma {:induction false} OperatorRetries(t: B.Task, u: World) returns (v: World)
    requires Leads(Initial(t), u) && u.task.status in {B.Produced, B.Verifying}
    ensures Leads(Initial(t), v) && v == u.(task := v.task) && v.task.status == B.Pending
  {
    var w1 := Tell(u, B.RequestReplan);
    LeadsOutside(Initial(t), u, B.RequestReplan);
    v := Tell(w1, B.Retry);
    LeadsOutside(Initial(t), w1, B.Retry);
  }

  /** From a fresh task: a request for a new plan and a retry while an attempt is being judged let the
      task succeed on an unverified artifact. */
  lemma {:induction false} RetryInFlight(t: B.Task, a: AgentId, b: AgentId)
    requires t.status == B.Pending && a != b
    ensures exists events :: !Sound(Play(Initial(t), events))
  {
    var u := HandedIn(t, a);
    var w := OperatorRetries(t, u);
    Overtakes(w, 0, b, "new");
    var v :| Reaches(w, v) && !Sound(v);
    LeadsOn(Initial(t), w, v);
  }

  // ----- What a stale copy does -----

  /** A cancellation that falls between the verifier's read and its write-back is lost: the task can still succeed,
      by that one attempt and no step of the operator. */
  lemma {:induction false} CancelIsLost(w: World, k: nat)
    requires k < |w.attempts| && w.attempts[k].stage == Verifying && w.attempts[k].copy.Held?
    requires w.attempts[k].copy.row.task.status in {B.Produced, B.Verifying}
    ensures exists v :: Reaches(Tell(w, B.Cancel), v) && Finished(w, v, k, {})
  {
    var u := Tell(w, B.Cancel);
    var next := WritesRow(u, k);
    Finishes(next, k, {});
    var v :| Reaches(next, v) && Finished(next, v, k, {});
    assert Reaches(u, v) && Finished(w, v, k, {});
  }

  /** From a fresh task to an attempt whose verifier has read the row. */
  lemma {:induction false} BeingVerified(t: B.Task, a: AgentId) returns (v: World)
    requires t.status == B.Pending
    ensures Leads(Initial(t), v) && v.task.status == B.Verifying
    ensures |v.attempts| == 1 && v.attempts[0].stage == Verifying && v.attempts[0].copy == Held(Current(v))
  {
    var u := HandedIn(t, a);
    v := ReadsRow(u, 0);
    ReachNone(v);
    LeadsOn(Initial(t), u, v);
  }

  /** From a fresh task, with one attempt: cancelled, and succeeded in the end. */
  lemma {:induction false} CancelledTaskSucceeds(t: B.Task, a: AgentId)
    requires t.status == B.Pending
    ensures exists u, v :: Leads(Initial(t), u) && u.task.status == B.Cancelled && Leads(u, v) && v.task.status == B.Succeeded
  {
    var w := BeingVerified(t, a);
    var u := Tell(w, B.Cancel);
    LeadsOutside(Initial(t), w, B.Cancel);
    var v := AfterCancel(w);
    assert Leads(u, v);
  }

  lemma {:induction false} AfterCancel(w: World) returns (v: World)
    requires |w.attempts| == 1 && w.attempts[0].stage == Verifying && w.attempts[0].copy.Held?
    requires w.attempts[0].copy.row.task.status == B.Verifying
    ensures Leads(Tell(w, B.Cancel), v) && v.task.status == B.Succeeded
  {
    CancelIsLost(w, 0);
    v :| Reaches(Tell(w, B.Cancel), v) && Finished(w, v, 0, {});
  }

  /** A new plan is asked of a task that has succeeded, and the write-back of a copy read before makes it succeed
      again, without a commit: this happens in a run from a fresh task. */
  ghost predicate Restored(t: B.Task, v: World, k: nat) {
    && Leads(Initial(t), v) && v.task.status == B.ReplanRequired
    && Enabled(v, WriteBack(k)) && Restores(v, WriteBack(k)) && AfterWriteBack(v, k).task.status == B.Succeeded
  }

  lemma {:induction false} SuccessIsRestored(t: B.Task, a: AgentId, b: AgentId)
    requires t.status == B.Pending && a != b
    ensures exists v, k :: Restored(t, v, k)
  {
    var w1 := HandedIn(t, a);
    var w2 := AfterStartVerify(w1, 0);
    LeadsStep(Initial(t), w1, StartVerify(0), w2);
    var w3 := OperatorRetries(t, w2);
    var w4 := TakesOver(w3, b, "new");
    assert w4.attempts[0] == w3.attempts[0];
    Finishes(w4, 1, {});
    var w5 :| Reaches(w4, w5) && Finished(w4, w5, 1, {});
    LeadsOn(Initial(t), w3, w5);
    RestoresAfter(t, w5, 0);
  }

  lemma {:induction false} RestoresAfter(t: B.Task, w: World, k: nat)
    requires Leads(Initial(t), w) && w.task.status == B.Succeeded
    requires k < |w.attempts| && w.attempts[k].stage == Verifying && w.attempts[k].copy == Unread
    ensures exists v :: Restored(t, v, k)
  {
    var u := AfterRead(w, k);
    LeadsStep(Initial(t), w, Read(k), u);
    var v := Tell(u, B.RequestReplan);
    LeadsOutside(Initial(t), u, B.RequestReplan);
    assert Restored(t, v, k);
  }
}
