/**
 Runs in which a task is claimed only while no attempt at it is under way, as one dispatch loop does.
 */
module SoloRuns {
  import opened Basics
  import B = TaskBoard
  import opened Evidence
  import opened Agreement

  /** The task is claimed only while no attempt of it is under way. */
  ghost predicate Solo(w: World, e: Event) {
    e.Claim? ==> forall i | 0 <= i < |w.attempts| :: w.attempts[i].stage == Done
  }

  ghost predicate SoloRun(w: World, events: seq<Event>)
    decreases |events|
  {
    |events| > 0 ==>
      && (Enabled(w, events[0]) ==> Solo(w, events[0]))
      && SoloRun(if Enabled(w, events[0]) then Step(w, events[0]) else w, events[1..])
  }

  /** The task was taken back: nothing the attempt compares on the row goes through any more. */
  ghost predicate LostRow(a: Attempt, r: Row) {
    && r.task.claimedBy != Some(a.agent)
    && (r.task.status in {B.Pending, B.Cancelled, B.ReplanRequired} || (a.stage == Closing && r.task.status != B.Succeeded))
  }

  ghost predicate OwnsOrLost(a: Attempt, r: Row) {
    OwnsRow(a, r) || LostRow(a, r)
  }

  ghost predicate LiveOk(w: World, a: Attempt) {
    && OwnsOrLost(a, Current(w))
    && (a.stage in {Claimed, Working} ==> a.slot == |w.replaced|)
    && (Judging(a.stage) && a.copy.Held? ==> OwnsOrLost(a, a.copy.row))
  }

  ghost predicate SoloInv(w: World) {
    && (forall i | 0 <= i < |w.attempts| - 1 :: w.attempts[i].stage == Done)
    && (forall i | 0 <= i < |w.attempts| && w.attempts[i].stage != Done :: LiveOk(w, w.attempts[i]))
    && Founded(w)
  }

  /** The last attempt moved on. */
  lemma {:induction false} LastMoved(w: World, next: World, k: nat, a: Attempt)
    requires SoloInv(w) && k < |w.attempts| && w.attempts[k].stage != Done && next.attempts == w.attempts[k := a]
    requires a.stage != Done ==> LiveOk(next, a)
    requires Founded(next)
    ensures SoloInv(next)
  {
    assert k == |w.attempts| - 1;
  }

  lemma {:induction false} SoloStarts(w: World, k: nat, admitted: bool)
    requires Inv(w) && SoloInv(w) && k < |w.attempts| && w.attempts[k].stage == Claimed
    ensures SoloInv(AfterStart(w, k, admitted))
  {
    var next := AfterStart(w, k, admitted);
    assert LiveOk(w, w.attempts[k]);
    LastMoved(w, next, k, next.attempts[k]);
  }

  lemma {:induction false} SoloPlans(w: World, k: nat)
    requires Inv(w) && SoloInv(w) && k < |w.attempts| && w.attempts[k].stage == Working
    ensures SoloInv(AfterPlan(w, k))
  {
    var next := AfterPlan(w, k);
    assert LiveOk(w, w.attempts[k]);
    LastMoved(w, next, k, next.attempts[k]);
  }

  lemma {:induction false} SoloProduces(w: World, k: nat, ids: seq<ArtifactId>)
    requires Inv(w) && SoloInv(w) && k < |w.attempts| && w.attempts[k].stage == Working && IdSet(ids) !! w.marks.Keys
    ensures SoloInv(AfterProduce(w, k, ids))
  {
    var next := AfterProduce(w, k, ids);
    assert LiveOk(w, w.attempts[k]);
    LastMoved(w, next, k, next.attempts[k]);
  }

  lemma {:induction false} SoloTakesUp(w: World, k: nat)
    requires Inv(w) && SoloInv(w) && k < |w.attempts| && w.attempts[k].stage == Produced
    ensures SoloInv(AfterStartVerify(w, k))
  {
    var next := AfterStartVerify(w, k);
    assert LiveOk(w, w.attempts[k]);
    LastMoved(w, next, k, next.attempts[k]);
  }

  lemma {:induction false} SoloReads(w: World, k: nat)
    requires Inv(w) && SoloInv(w) && k < |w.attempts| && w.attempts[k].stage in {Verifying, Refused, Conflicted, Ousted}
    ensures SoloInv(AfterRead(w, k))
  {
    var next := AfterRead(w, k);
    assert LiveOk(w, w.attempts[k]);
    LastMoved(w, next, k, next.attempts[k]);
  }

  lemma {:induction false} SoloWrites(w: World, k: nat)
    requires Inv(w) && SoloInv(w) && k < |w.attempts| && w.attempts[k].stage in {Verifying, Refused, Conflicted} && w.attempts[k].copy.Held?
    ensures SoloInv(AfterWriteBack(w, k))
  {
    var next := AfterWriteBack(w, k);
    assert LiveOk(w, w.attempts[k]);
    LastMoved(w, next, k, next.attempts[k]);
  }

  lemma {:induction false} SoloDecides(w: World, k: nat, pass: bool)
    requires Inv(w) && SoloInv(w) && k < |w.attempts| && w.attempts[k].stage == Verifying && (pass ==> !w.attempts[k].copy.Held?)
    ensures SoloInv(AfterVerdict(w, k, pass))
  {
    var next := AfterVerdict(w, k, pass);
    assert LiveOk(w, w.attempts[k]);
    LastMoved(w, next, k, next.attempts[k]);
  }

  lemma {:induction false} SoloIsHooked(w: World, k: nat, allow: bool)
    requires Inv(w) && SoloInv(w) && k < |w.attempts| && w.attempts[k].stage == Passed
    ensures SoloInv(AfterHook(w, k, allow))
  {
    var next := AfterHook(w, k, allow);
    assert LiveOk(w, w.attempts[k]);
    LastMoved(w, next, k, next.attempts[k]);
  }

  lemma {:induction false} SoloMerges(w: World, k: nat, conflict: bool)
    requires Inv(w) && SoloInv(w) && k < |w.attempts| && w.attempts[k].stage == Approved
    ensures SoloInv(AfterMerge(w, k, conflict))
  {
    var next := AfterMerge(w, k, conflict);
    assert LiveOk(w, w.attempts[k]);
    LastMoved(w, next, k, next.attempts[k]);
  }

  lemma {:induction false} SoloMarks(w: World, k: nat, found: bool)
    requires Inv(w) && SoloInv(w) && k < |w.attempts| && w.attempts[k].stage.Marking? && w.attempts[k].stage.marked < |w.attempts[k].ids|
    ensures SoloInv(AfterMark(w, k, found))
  {
    var next := AfterMark(w, k, found);
    assert LiveOk(w, w.attempts[k]);
    LastMoved(w, next, k, next.attempts[k]);
  }

  lemma {:induction false} SoloCommits(w: World, k: nat)
    requires Inv(w) && SoloInv(w) && k < |w.attempts| && w.attempts[k].stage.Marking? && w.attempts[k].stage.marked >= |w.attempts[k].ids|
    ensures SoloInv(AfterCommit(w, k))
  {
    var next := AfterCommit(w, k);
    assert LiveOk(w, w.attempts[k]);
    LastMoved(w, next, k, next.attempts[k]);
  }

  lemma {:induction false} SoloSendsBack(w: World, k: nat)
    requires Inv(w) && SoloInv(w) && k < |w.attempts| && w.attempts[k].stage == Returning
    ensures SoloInv(AfterSendBack(w, k))
  {
    var next := AfterSendBack(w, k);
    assert LiveOk(w, w.attempts[k]);
    LastMoved(w, next, k, next.attempts[k]);
  }

  lemma {:induction false} SoloWithdraws(w: World, k: nat)
    requires Inv(w) && SoloInv(w) && k < |w.attempts| && w.attempts[k].stage == Ousted && w.attempts[k].copy.Held?
    ensures SoloInv(AfterWithdraw(w, k))
  {
    var next := AfterWithdraw(w, k);
    assert LiveOk(w, w.attempts[k]);
    LastMoved(w, next, k, next.attempts[k]);
  }

  lemma {:induction false} SoloFails(w: World, k: nat, report: B.Event)
    requires Inv(w) && SoloInv(w) && k < |w.attempts| && CanRaise(w.attempts[k]) && report.Fail? && report.agent == w.attempts[k].agent
    ensures SoloInv(AfterFail(w, k, report))
  {
    var next := AfterFail(w, k, report);
    assert LiveOk(w, w.attempts[k]);
    LastMoved(w, next, k, next.attempts[k]);
  }

  lemma {:induction false} SoloReleases(w: World, k: nat)
    requires Inv(w) && SoloInv(w) && k < |w.attempts| && w.attempts[k].stage == Working
    ensures SoloInv(AfterRelease(w, k))
  {
    var next := AfterRelease(w, k);
    assert LiveOk(w, w.attempts[k]);
    LastMoved(w, next, k, next.attempts[k]);
  }

  lemma {:induction false} SoloWaits(w: World, k: nat)
    requires Inv(w) && SoloInv(w) && k < |w.attempts| && w.attempts[k].stage == Working
    ensures SoloInv(AfterPermission(w, k))
  {
    var next := AfterPermission(w, k);
    assert LiveOk(w, w.attempts[k]);
    LastMoved(w, next, k, next.attempts[k]);
  }

  lemma {:induction false} SoloRetires(w: World, k: nat)
    requires Inv(w) && SoloInv(w) && k < |w.attempts| && w.attempts[k].stage == Closing
    ensures SoloInv(At(w, k, Done))
  {
    var next := At(w, k, Done);
    assert LiveOk(w, w.attempts[k]);
    if next.task.status == B.Succeeded {
      var i :| 0 <= i < |w.attempts| && w.attempts[i].won && w.produced == IdSet(w.attempts[i].ids);
      assert next.attempts[i].won && next.produced == IdSet(next.attempts[i].ids);
    }
    LastMoved(w, next, k, next.attempts[k]);
  }

  lemma {:induction false} SoloClaims(w: World, agent: AgentId)
    requires SoloInv(w) && Solo(w, Claim(agent))
    ensures SoloInv(AfterClaim(w, agent))
  {
    var next := AfterClaim(w, agent);
    assert forall i | 0 <= i < |w.attempts| :: next.attempts[i] == w.attempts[i];
  }

  lemma {:induction false} SoloOutside(w: World, o: B.Event)
    requires SoloInv(w) && Enabled(w, Outside(o))
    ensures SoloInv(Tell(w, o))
  {
    var next := Tell(w, o);
    forall i | 0 <= i < |w.attempts| && w.attempts[i].stage != Done ensures LiveOk(next, w.attempts[i]) {
      assert LiveOk(w, w.attempts[i]);
    }
  }

  lemma {:induction false} SoloStepKeeps(w: World, e: Event)
    requires Inv(w) && SoloInv(w) && Enabled(w, e) && Solo(w, e)
    ensures SoloInv(Step(w, e))
  {
    match e
    case Claim(agent) => SoloClaims(w, agent);
    case Outside(o) => SoloOutside(w, o);
    case Start(k, admitted) => SoloStarts(w, k, admitted);
    case SubmitPlan(k) => SoloPlans(w, k);
    case Produce(k, ids) => SoloProduces(w, k, ids);
    case StartVerify(k) => SoloTakesUp(w, k);
    case Read(k) => SoloReads(w, k);
    case WriteBack(k) => SoloWrites(w, k);
    case Verdict(k, pass) => SoloDecides(w, k, pass);
    case Hook(k, allow) => SoloIsHooked(w, k, allow);
    case Merge(k, conflict) => SoloMerges(w, k, conflict);
    case MarkNext(k, found) => SoloMarks(w, k, found);
    case Commit(k) => SoloCommits(w, k);
    case SendBack(k) => SoloSendsBack(w, k);
    case Withdraw(k) => SoloWithdraws(w, k);
    case Fail(k, retryable, rateLimited, retryAt) => SoloFails(w, k, B.Fail(w.attempts[k].agent, retryable, rateLimited, retryAt));
    case Release(k) => SoloReleases(w, k);
    case AwaitPermission(k) => SoloWaits(w, k);
    case Retire(k) => SoloRetires(w, k);
  }

  // ----- Whole runs -----

  lemma {:induction false} SoloRests(w: World)
    requires Inv(w) && SoloInv(w)
    ensures Resting(w)
  {
    forall i | 0 <= i < |w.attempts| && w.attempts[i].stage != Done && w.task.status == B.Succeeded
      ensures w.attempts[i].stage == Closing && w.attempts[i].won
    {
      assert LiveOk(w, w.attempts[i]) && AttemptOk(w.attempts[i], w.marks);
    }
  }

  lemma {:induction false} SoloKept(w: World, e: Event)
    requires Inv(w) && SoloInv(w) && Kept(w) && Enabled(w, e)
    ensures !Undoes(w, e) ==> Kept(Step(w, e))
  {
    SoloRests(w);
    if !e.Claim? && !e.Outside? { assert LiveOk(w, w.attempts[e.k]); }
    if w.task.status == B.Succeeded { KeptStays(w, e); } else { NoneWins(w, e); }
  }

  /** Before the task succeeds nobody has won, and the one that wins made what the row records. */
  lemma {:induction false} NoneWins(w: World, e: Event)
    requires Inv(w) && SoloInv(w) && Kept(w) && Enabled(w, e) && w.task.status != B.Succeeded
    ensures Kept(Step(w, e))
  {
    WinnersAre(w, e);
    StepTask(w, e);
    StepProduced(w, e);
    if e.Commit? { assert LiveOk(w, w.attempts[e.k]); }
  }

  lemma {:induction false} SoloPlayAgrees(w: World, events: seq<Event>)
    requires Inv(w) && SoloInv(w) && Kept(w) && SoloRun(w, events)
    ensures AgreesThroughout(w, events) <==> !Undone(w, events)
    decreases |events|
  {
    KeptAgrees(w);
    if |events| > 0 {
      var e, next := events[0], if Enabled(w, events[0]) then Step(w, events[0]) else w;
      if Enabled(w, e) && Undoes(w, e) {
        UndoBreaks(w, e);
      } else {
        if Enabled(w, e) {
          StepKeeps(w, e);
          SoloStepKeeps(w, e);
          SoloKept(w, e);
        }
        SoloPlayAgrees(next, events[1..]);
      }
    }
  }

  /** What a dispatch loop that starts no task in flight gives: board and artifacts agree throughout, whatever the
      operator retries and whenever, if and only if no step takes a success back. */
  lemma {:induction false} SoloRunsAgree(t: B.Task, events: seq<Event>)
    requires t.status == B.Pending && SoloRun(Initial(t), events)
    ensures AgreesThroughout(Initial(t), events) <==> !Undone(Initial(t), events)
  {
    SoloPlayAgrees(Initial(t), events);
  }

  lemma {:induction false} SoloPlayKeeps(w: World, events: seq<Event>)
    requires Inv(w) && SoloInv(w) && SoloRun(w, events)
    ensures Inv(Play(w, events)) && SoloInv(Play(w, events))
    decreases |events|
  {
    if |events| > 0 {
      if Enabled(w, events[0]) {
        StepKeeps(w, events[0]);
        SoloStepKeeps(w, events[0]);
      }
      SoloPlayKeeps(if Enabled(w, events[0]) then Step(w, events[0]) else w, events[1..]);
    }
  }

  /** And whatever is taken back, a succeeded task records verified artifacts only. */
  lemma {:induction false} SoloRunsAreSound(t: B.Task, events: seq<Event>)
    requires t.status == B.Pending && SoloRun(Initial(t), events)
    ensures Sound(Play(Initial(t), events))
  {
    SoloPlayKeeps(Initial(t), events);
    FoundedIsSound(Play(Initial(t), events));
  }
}
