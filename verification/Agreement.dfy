/**
 What it means that the board and the artifacts agree, and which steps end it once a task has succeeded.
 */
module Agreement {
  import opened Basics
  import B = TaskBoard
  import opened Evidence

  /** The attempt has handed in its artifacts, and a judgement or the write-back of a copy is still to come. */
  predicate Judging(stage: Stage) {
    stage !in {Claimed, Working, Returning, Ousted, Closing, Done}
  }

  // ----- Who owns the row -----

  predicate Fits(a: Attempt, s: B.Status) {
    s in {B.Cancelled, B.ReplanRequired, B.RepairRequired} ||
    match a.stage
    case Claimed => s == B.Claimed
    case Working => s in {B.Running, B.Blocked}
    case Produced => s == B.Produced
    case Ousted => s != B.Succeeded
    case Closing => a.won || s != B.Succeeded
    case Done => false
    case _ => s == B.Verifying
  }

  /** The row is the attempt's, and what it records is the attempt's evidence. */
  ghost predicate OwnsRow(a: Attempt, r: Row) {
    && r.task.claimedBy == Some(a.agent) && Fits(a, r.task.status)
    && (Judging(a.stage) ==> r.produced == IdSet(a.ids))
  }

  /** A succeeded task stands on an attempt that won, and records its artifacts. */
  ghost predicate Founded(w: World) {
    w.task.status == B.Succeeded ==>
      exists i :: 0 <= i < |w.attempts| && w.attempts[i].won && w.produced == IdSet(w.attempts[i].ids)
  }

  /** What a succeeded task records is verified. */
  ghost predicate Sound(w: World) {
    w.task.status == B.Succeeded ==> forall x | x in w.produced :: x in w.marks && w.marks[x] == Verified
  }

  lemma {:induction false} FoundedIsSound(w: World)
    requires Inv(w) && Founded(w)
    ensures Sound(w)
  {
    if w.task.status == B.Succeeded {
      var i :| 0 <= i < |w.attempts| && w.attempts[i].won && w.produced == IdSet(w.attempts[i].ids);
      assert AllVerified(w.attempts[i], w.marks);
    }
  }

  // ----- Agreement -----

  /** The board's evidence and the artifacts agree: the task has succeeded exactly when an attempt has won,
      every attempt past its marking that has a verified artifact is that one, and what the board records
      is its artifacts, every one verified. */
  ghost predicate Agrees(w: World) {
    && (w.task.status == B.Succeeded <==> SomeWon(w))
    && (forall k, i | 0 <= k < |w.attempts| && 0 <= i < |w.attempts[k].ids| ::
          !w.attempts[k].stage.Marking? && w.attempts[k].ids[i] in w.marks && w.marks[w.attempts[k].ids[i]] == Verified
          ==> w.task.status == B.Succeeded && w.produced == IdSet(w.attempts[k].ids))
    && Sound(w)
  }

  /** Every attempt that won holds the task still. */
  ghost predicate Kept(w: World) {
    forall i | 0 <= i < |w.attempts| && w.attempts[i].won :: w.task.status == B.Succeeded && w.produced == IdSet(w.attempts[i].ids)
  }

  lemma {:induction false} KeptAgrees(w: World)
    requires Inv(w) && Kept(w)
    ensures Agrees(w) && Founded(w)
  {
    if w.task.status == B.Succeeded {
      assert SuccessSeen(w);
      var k :| 0 <= k < |w.attempts| && w.attempts[k].won;
      assert w.produced == IdSet(w.attempts[k].ids);
      FoundedIsSound(w);
    }
  }

  /** Takes a success back: a new plan is asked of a succeeded task, or the attempt that won reports a failure,
      because the history or a hook it tells of its success raises. */
  ghost predicate Undoes(w: World, e: Event) {
    w.task.status == B.Succeeded
    && (|| e == Outside(B.RequestReplan)
        || (e.Fail? && e.k < |w.attempts| && w.attempts[e.k].won && w.task.claimedBy == Some(w.attempts[e.k].agent)))
  }

  lemma {:induction false} UndoBreaks(w: World, e: Event)
    requires Inv(w) && Enabled(w, e) && Undoes(w, e)
    ensures !Agrees(Step(w, e))
  {
    assert SuccessSeen(w);
    var i :| 0 <= i < |w.attempts| && w.attempts[i].won;
    assert Step(w, e).attempts[i].won;
  }

  /** Once the task has succeeded no attempt can write its row any more, but for the failure report of one that
      has told the board its last word. */
  ghost predicate Resting(w: World) {
    w.task.status == B.Succeeded ==>
      forall i | 0 <= i < |w.attempts| ::
        || w.attempts[i].stage == Done
        || (w.attempts[i].stage == Closing && w.attempts[i].won)
        || (!Judging(w.attempts[i].stage) && w.task.claimedBy != Some(w.attempts[i].agent))
  }

  /** An attempt that stops for a permission, or submits a plan, writes its own row back; it still owns the task. */
  ghost predicate Entitled(w: World, e: Event) {
    (e.AwaitPermission? || e.SubmitPlan?) && e.k < |w.attempts| ==> w.task.claimedBy == Some(w.attempts[e.k].agent)
  }

  lemma {:induction false} OpRests(t: B.Task, op: B.Event)
    requires t.status == B.Succeeded && !op.WriteBack? && !op.RequestReplan? && !op.Create?
    requires op.Fail? ==> t.claimedBy != Some(op.agent)
    ensures Tried(t, op) == t
  {}

  lemma {:induction false} RestStays(w: World, e: Event)
    requires Enabled(w, e) && Resting(w) && Entitled(w, e) && !Undoes(w, e) && w.task.status == B.Succeeded
    ensures Step(w, e).task.status == B.Succeeded && Step(w, e).produced == w.produced
  {
    StepTask(w, e);
    StepProduced(w, e);
    if e.Claim? {
      OpRests(w.task, B.Claim(e.agent));
    } else if Op(w, e).Some? {
      OpRests(w.task, Op(w, e).value);
    }
  }

  lemma {:induction false} ClaimWins(w: World, e: Event)
    requires Enabled(w, e) && (e.Claim? || e.Outside?)
    ensures forall i | 0 <= i < |Step(w, e).attempts| && Step(w, e).attempts[i].won ::
              i < |w.attempts| && Step(w, e).attempts[i] == w.attempts[i]
  {}

  lemma {:induction false} WinnersAre(w: World, e: Event)
    requires Inv(w) && Enabled(w, e)
    ensures forall i | 0 <= i < |Step(w, e).attempts| && Step(w, e).attempts[i].won ::
              || (e.Commit? && i == e.k && w.task.status in {B.Produced, B.Verifying} && Step(w, e).attempts[i].ids == w.attempts[i].ids)
              || (i < |w.attempts| && w.attempts[i].won && Step(w, e).attempts[i].ids == w.attempts[i].ids)
  {
    if e.Claim? || e.Outside? {
      ClaimWins(w, e);
    } else {
      MovedOn(w, e);
      assert AttemptOk(w.attempts[e.k], w.marks);
    }
  }

  /** A success is kept by every step that does not take it back. */
  lemma {:induction false} KeptStays(w: World, e: Event)
    requires Inv(w) && Enabled(w, e) && Kept(w) && Resting(w) && Entitled(w, e)
    requires Commits(w, e) ==> w.produced == IdSet(w.attempts[e.k].ids)
    ensures !Undoes(w, e) ==> Kept(Step(w, e))
  {
    WinnersAre(w, e);
    StepProduced(w, e);
    StepTask(w, e);
    if e.Commit? { assert AttemptOk(w.attempts[e.k], w.marks); }
    if w.task.status == B.Succeeded && !Undoes(w, e) { RestStays(w, e); }
  }

  // ----- Over runs -----

  /** Board and artifacts agree from here on, at every step. */
  ghost predicate AgreesThroughout(w: World, events: seq<Event>)
    decreases |events|
  {
    && Agrees(w)
    && (|events| > 0 ==> AgreesThroughout(if Enabled(w, events[0]) then Step(w, events[0]) else w, events[1..]))
  }

  /** Some step of the run takes a success back. */
  ghost predicate Undone(w: World, events: seq<Event>)
    decreases |events|
  {
    && |events| > 0
    && (|| (Enabled(w, events[0]) && Undoes(w, events[0]))
        || Undone(if Enabled(w, events[0]) then Step(w, events[0]) else w, events[1..]))
  }
}
