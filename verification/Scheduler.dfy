/**
 The dispatch loop: waves of tasks turned into futures, and what stays true of those in flight over a whole run.
 */
module Scheduler {
  import opened Basics
  import opened Sorting
  import opened Agents
  import opened TaskBoard
  import opened Dispatch

  type Future = nat

  datatype Outcome = Paused | Cancelled | Resolved(verdict: Verdict) | Finished | MaxRounds

  /** What the outside world does between two steps of the loop: the board and the agents as the loop finds them,
      the operator's signals and the futures that finish. */
  datatype Turn = Turn(
    paused: bool,
    cancelled: bool,
    board: Board,
    now: int,
    pending: seq<TaskId>,
    pool: Pool,
    done: set<Future>,
    cancelledAfter: bool,
    pausedAfter: bool,
    succeeded: bool)

  datatype Config = Config(run: RunId, maxRounds: nat, maxConcurrency: int, exclusive: set<TaskId>)

  datatype Loop = Loop(round: nat, running: map<Future, TaskId>, next: Future, outcome: Option<Outcome>)

  ghost predicate Sound(turn: Turn) {
    ListsPending(turn.board, turn.now, turn.pending) && DistinctIds(turn.pool)
  }

  ghost predicate SoundAt(turns: seq<Turn>, i: nat) {
    i < |turns| && Sound(turns[i])
  }

  ghost predicate AllSound(turns: seq<Turn>) {
    forall i: nat | i < |turns| :: SoundAt(turns, i)
  }

  function Wave(c: Config, l: Loop, turn: Turn): seq<Pair> {
    Plan(turn.board, turn.pending, IdleOf(turn.pool, c.run), l.running.Values, |l.running|, c.maxConcurrency, c.exclusive)
  }

  function Ids(wave: seq<Pair>): seq<TaskId> {
    seq(|wave|, i requires 0 <= i < |wave| => wave[i].task)
  }

  /** One new future for each task. */
  function Started(running: map<Future, TaskId>, next: Future, ids: seq<TaskId>): map<Future, TaskId>
    decreases |ids|
  {
    if |ids| == 0 then running else Started(running[next := ids[0]], next + 1, ids[1..])
  }

  function Launch(c: Config, l: Loop, turn: Turn): Loop {
    var wave := Wave(c, l, turn);
    if wave == [] then l
    else l.(round := l.round + 1, running := Started(l.running, l.next, Ids(wave)), next := l.next + |wave|)
  }

  function Ended(l: Loop, outcome: Outcome): Loop {
    l.(running := map[], outcome := Some(outcome))
  }

  /** The tasks some agent of the run that has not ended could serve. */
  function Served(c: Config, turn: Turn): set<TaskId> {
    set id | id in turn.board && exists a | a in turn.pool ::
      a.run == c.run && a.status !in {AgentStatus.Stopped, AgentStatus.Failed} && Serves(a, turn.board[id])
  }

  /** The rest of a turn, once the wave has been launched; a deferred retry is waited for. */
  function Await(c: Config, l: Loop, turn: Turn): Loop {
    if l.running == map[] then
      var verdict := Resolve(turn.board, turn.now, Served(c, turn));
      if verdict.Backoff? then l else l.(outcome := Some(Resolved(verdict)))
    else
      var left := l.(running := l.running - turn.done);
      if left == l then l
      else if turn.cancelledAfter then Ended(left, Outcome.Cancelled)
      else if turn.pausedAfter then Ended(left, Paused)
      else if turn.succeeded then left.(outcome := Some(Finished))
      else left
  }

  /** One turn of the loop. */
  function Pass(c: Config, l: Loop, turn: Turn): Loop {
    if l.outcome.Some? then l
    else if l.round >= c.maxRounds then Ended(l, MaxRounds)
    else if turn.paused then Ended(l, Paused)
    else if turn.cancelled then Ended(l, Outcome.Cancelled)
    else Await(c, Launch(c, l, turn), turn)
  }

  /** The loop after the first n turns. */
  function Passes(c: Config, turns: seq<Turn>, n: nat): Loop
    requires n <= |turns|
  {
    if n == 0 then Loop(0, map[], 0, None) else Pass(c, Passes(c, turns, n - 1), turns[n - 1])
  }

  // ----- What every run keeps -----

  /** No task is in flight twice, and one that tolerates no siblings has none. */
  ghost predicate Orderly(running: map<Future, TaskId>, exclusive: set<TaskId>) {
    && NoneTwice(running)
    && forall f, g | f in running && g in running && running[f] in exclusive :: f == g
  }

  ghost predicate Good(c: Config, l: Loop) {
    && l.round <= c.maxRounds
    && |l.running| <= Max(0, c.maxConcurrency) + l.round
    && Orderly(l.running, c.exclusive)
    && Below(l.running, l.next)
  }

  lemma {:induction false} ValuesEmpty(m: map<Future, TaskId>)
    ensures |m| == 0 <==> m.Values == {}
  {
    if f :| f in m { assert m[f] in m.Values; }
    else { assert m == map[]; }
  }

  ghost predicate NoneTwice(running: map<Future, TaskId>) {
    forall f, g | f in running && g in running && running[f] == running[g] :: f == g
  }

  ghost predicate Below(running: map<Future, TaskId>, next: Future) {
    forall f | f in running :: f < next
  }

  ghost predicate Distinct(ids: seq<TaskId>) {
    forall i, j | 0 <= i < j < |ids| :: ids[i] != ids[j]
  }

  lemma {:induction false} StartedIs(running: map<Future, TaskId>, next: Future, ids: seq<TaskId>)
    requires NoneTwice(running) && Below(running, next) && Distinct(ids)
    requires forall i, f | 0 <= i < |ids| && f in running :: running[f] != ids[i]
    ensures var all := Started(running, next, ids);
            NoneTwice(all) && Below(all, next + |ids|) && |all| == |running| + |ids|
    decreases |ids|
  {
    if |ids| > 0 {
      StartedIs(running[next := ids[0]], next + 1, ids[1..]);
    }
  }

  lemma {:induction false} StartedHas(running: map<Future, TaskId>, next: Future, ids: seq<TaskId>, f: Future)
    requires f in Started(running, next, ids)
    ensures Started(running, next, ids)[f] in ids || (f in running && Started(running, next, ids)[f] == running[f])
    decreases |ids|
  {
    if |ids| > 0 { StartedHas(running[next := ids[0]], next + 1, ids[1..], f); }
  }

  lemma {:induction false} LaunchKeeps(c: Config, l: Loop, turn: Turn)
    requires Good(c, l) && Sound(turn) && l.round < c.maxRounds
    ensures Good(c, Launch(c, l, turn))
    ensures |Launch(c, l, turn).running| <= Max(|l.running| + 1, c.maxConcurrency)
  {
    WaveIds(c, l, turn);
    WaveJoins(l.running, l.next, Ids(Wave(c, l, turn)), c.exclusive);
  }

  lemma {:induction false} WaveTasks(c: Config, l: Loop, turn: Turn, i: nat)
    requires Sound(turn) && i < |Wave(c, l, turn)|
    ensures var task, inFlight := Wave(c, l, turn)[i].task, l.running.Values;
            task !in inFlight && (task in c.exclusive ==> inFlight == {} && |Wave(c, l, turn)| == 1)
  {
    ValuesEmpty(l.running);
    WaveIsMatching(turn.board, turn.now, turn.pending, turn.pool, c.run, l.running.Values, |l.running|, c.maxConcurrency, c.exclusive);
    assert Wave(c, l, turn)[i] in Wave(c, l, turn);
  }

  lemma {:induction false} WaveIds(c: Config, l: Loop, turn: Turn)
    requires Sound(turn)
    ensures var ids := Ids(Wave(c, l, turn));
            && Distinct(ids) && |ids| <= Max(1, c.maxConcurrency - |l.running|)
            && (forall id | id in ids :: id !in l.running.Values && (id in c.exclusive ==> l.running.Values == {} && |ids| == 1))
            && (!(l.running.Values !! c.exclusive) ==> ids == [])
  {
    var wave := Wave(c, l, turn);
    forall id | id in Ids(wave)
      ensures id !in l.running.Values && (id in c.exclusive ==> l.running.Values == {} && |wave| == 1)
    {
      var i: nat :| i < |wave| && wave[i].task == id;
      WaveTasks(c, l, turn, i);
    }
    ValuesEmpty(l.running);
    WaveIsMatching(turn.board, turn.now, turn.pending, turn.pool, c.run, l.running.Values, |l.running|, c.maxConcurrency, c.exclusive);
  }

  lemma {:induction false} WaveJoins(running: map<Future, TaskId>, next: Future, ids: seq<TaskId>, exclusive: set<TaskId>)
    requires Orderly(running, exclusive) && Below(running, next) && Distinct(ids)
    requires forall id | id in ids :: id !in running.Values && (id in exclusive ==> running.Values == {} && |ids| == 1)
    requires !(running.Values !! exclusive) ==> ids == []
    ensures var all := Started(running, next, ids);
            Orderly(all, exclusive) && Below(all, next + |ids|) && |all| == |running| + |ids|
  {
    ValuesEmpty(running);
    var all := Started(running, next, ids);
    forall f | f in running ensures running[f] in running.Values {}
    StartedIs(running, next, ids);
    forall f, g | f in all && g in all && all[f] in exclusive ensures f == g {
      if |ids| > 0 {
        StartedHas(running, next, ids, f);
        assert |all| == 1;
        OneKey(all, f, g);
      }
    }
  }

  lemma {:induction false} OneKey(m: map<Future, TaskId>, f: Future, g: Future)
    requires |m| == 1 && f in m && g in m
    ensures f == g
  {
    var rest := m.Keys - {f};
    assert |m.Keys| == 1 && |rest| == 0;
    assert g in m.Keys && g !in rest;
  }

  lemma {:induction false} PassKeeps(c: Config, l: Loop, turn: Turn)
    requires Good(c, l) && Sound(turn)
    ensures Good(c, Pass(c, l, turn))
  {
    if l.outcome.None? && l.round < c.maxRounds {
      LaunchKeeps(c, l, turn);
      AwaitKeeps(c, Launch(c, l, turn), turn);
    }
  }

  lemma {:induction false} AwaitKeeps(c: Config, l: Loop, turn: Turn)
    requires Good(c, l)
    ensures Good(c, Await(c, l, turn))
  {
    FewerLeft(l.running, turn.done);
    LeftIsOrderly(l.running, l.next, turn.done, c.exclusive);
  }

  lemma {:induction false} LeftIsOrderly(running: map<Future, TaskId>, next: Future, done: set<Future>, exclusive: set<TaskId>)
    requires Orderly(running, exclusive) && Below(running, next)
    ensures Orderly(running - done, exclusive) && Below(running - done, next)
  {
    assert forall f | f in running - done :: f in running && (running - done)[f] == running[f];
  }

  lemma {:induction false} FewerLeft(running: map<Future, TaskId>, done: set<Future>)
    ensures |running - done| <= |running|
  {
    assert (running - done).Keys <= running.Keys;
    SubsetSize((running - done).Keys, running.Keys);
    assert |(running - done).Keys| == |running - done| && |running.Keys| == |running|;
  }

  lemma {:induction false} PassesKeep(c: Config, turns: seq<Turn>, n: nat)
    requires n <= |turns| && AllSound(turns)
    ensures Good(c, Passes(c, turns, n))
  {
    if n > 0 {
      PassesKeep(c, turns, n - 1);
      assert SoundAt(turns, n - 1);
      PassKeeps(c, Passes(c, turns, n - 1), turns[n - 1]);
    }
  }

  /** Over every run, at every turn, before and after the wave is launched. */
  lemma {:induction false} BarrierOverRuns(c: Config, turns: seq<Turn>, n: nat)
    requires n <= |turns| && AllSound(turns)
    ensures Good(c, Passes(c, turns, n))
    ensures var l := Passes(c, turns, n);
            n < |turns| && l.outcome.None? && l.round < c.maxRounds ==>
              Good(c, Launch(c, l, turns[n])) && |Launch(c, l, turns[n]).running| <= Max(|l.running| + 1, c.maxConcurrency)
  {
    PassesKeep(c, turns, n);
    var l := Passes(c, turns, n);
    if n < |turns| && l.outcome.None? && l.round < c.maxRounds {
      assert SoundAt(turns, n);
      LaunchKeeps(c, l, turns[n]);
    }
  }

  lemma {:induction false} PassesStay(c: Config, turns: seq<Turn>, n: nat, m: nat)
    requires n <= m <= |turns| && Passes(c, turns, n).outcome.Some?
    ensures Passes(c, turns, m) == Passes(c, turns, n)
  {
    if n < m { PassesStay(c, turns, n, m - 1); }
  }

  // ----- Why a stalled run is over -----

  /** A run that stalls over a quiet board is called deadlocked exactly when a pending task is doomed at any
      distance; when it is called short of workers some task is ready, and no idle agent can serve any
      ready task. */
  lemma {:induction false} StalledRun(c: Config, l: Loop, turn: Turn)
    requires Sound(turn) && l.running == map[] && Wave(c, l, turn) == []
    requires Earned(turn.board) && Quiet(turn.board)
    ensures var b, v := turn.board, Resolve(turn.board, turn.now, Served(c, turn));
            && !v.SchedulerDeadlock?
            && (v.Deadlock? <==>
                  && !BoardSucceeded(b) && (forall id | id in b :: !Deferred(b[id], turn.now))
                  && exists id :: id in b && b[id].status == Pending && Doomed(b, id))
            && (v.NoEligibleWorker? ==> forall id | id in b && b[id].status == Pending && TaskBoard.DepsSatisfied(b, b[id]) ::
                  Able(IdleOf(turn.pool, c.run), b[id]) == [])
            && (v.NoEligibleWorker? && DepsPresent(b) && Acyclic(b) ==>
                  exists id :: id in b && b[id].status == Pending && TaskBoard.DepsSatisfied(b, b[id]))
  {
    var b := turn.board;
    DeadlockVerdict(b, turn.now, Served(c, turn));
    NoWorkerVerdict(b, turn.now, Served(c, turn));
    if Resolve(b, turn.now, Served(c, turn)).NoEligibleWorker? {
      forall id | id in b && b[id].status == Pending && TaskBoard.DepsSatisfied(b, b[id])
        ensures Able(IdleOf(turn.pool, c.run), b[id]) == []
      {
        ValuesEmpty(l.running);
        EmptyWaveMeansNoWorker(b, turn.now, turn.pending, IdleOf(turn.pool, c.run), c.maxConcurrency, c.exclusive, id);
      }
    }
  }

  // ----- The scheduler -----

  class DispatchScheduler {
    const config: Config
    var hints: map<TaskId, AgentId>

    constructor (config: Config)
      ensures this.config == config && hints == map[]
    {
      this.config, hints := config, map[];
    }

    method DepsSatisfied(b: Board, t: Task) returns (ok: bool)
      ensures ok == TaskBoard.DepsSatisfied(b, t)
    {
      for i := 0 to |t.dependencies|
        invariant forall j | 0 <= j < i :: t.dependencies[j] in b && b[t.dependencies[j]].status == Succeeded
      {
        var d := t.dependencies[i];
        if d !in b || b[d].status != Succeeded { return false; }
      }
      return true;
    }

    /** Tasks that are ready to dispatch right now; the agent planned for each is remembered. */
    method DiscoverDispatchable(b: Board, pending: seq<TaskId>, pool: Pool, running: map<Future, TaskId>)
      returns (selected: seq<TaskId>)
      requires forall i | 0 <= i < |pending| :: pending[i] in b
      modifies this`hints
      ensures var wave := Plan(b, pending, IdleOf(pool, config.run), running.Values, |running|, config.maxConcurrency, config.exclusive);
              selected == Ids(wave) && hints == Hinted(old(hints), wave)
    {
      var idle, inFlight := IdleOf(pool, config.run), running.Values;
      var ready := Collect(b, pending, idle, inFlight);
      var ordered, capacity := Admit(Sort(Constrained, ready), running);
      var wave := Select(ordered, idle, capacity);
      selected := Ids(wave);
    }

    /** Applies the barrier of the tasks that tolerate no siblings. */
    method Admit(ordered: seq<Entry>, running: map<Future, TaskId>) returns (admitted: seq<Entry>, capacity: nat)
      ensures admitted == PastBarrier(ordered, running.Values, config.exclusive)
      ensures capacity == Slots(ordered, |running|, config.maxConcurrency, config.exclusive)
    {
      ValuesEmpty(running);
      admitted, capacity := ordered, Max(0, config.maxConcurrency - |running|);
      var alone := Where(ordered, config.exclusive, true);
      if |running| > 0 {
        if exists id | id in running.Values :: id in config.exclusive {
          admitted := [];
        } else {
          admitted := Where(ordered, config.exclusive, false);
        }
      } else if |alone| > 0 {
        SortIs(Urgent, alone);
        admitted := Sort(Urgent, alone)[..1];
        capacity := if capacity < 1 then capacity else 1;
      }
    }

    method Collect(b: Board, pending: seq<TaskId>, idle: seq<Agent>, inFlight: set<TaskId>) returns (entries: seq<Entry>)
      requires forall i | 0 <= i < |pending| :: pending[i] in b
      ensures entries == Entries(b, pending, |pending|, idle, inFlight)
    {
      entries := [];
      for i := 0 to |pending|
        invariant entries == Entries(b, pending, i, idle, inFlight)
      {
        var id := pending[i];
        var ready := DepsSatisfied(b, b[id]);
        if ready {
          var candidates := Able(idle, b[id]);
          if |candidates| > 0 && id !in inFlight {
            entries := entries + [Entry(id, b[id], |candidates|)];
          }
        }
      }
    }

    /** Hands each task in turn the narrowest agent left that can serve it. */
    method Select(ordered: seq<Entry>, idle: seq<Agent>, capacity: nat) returns (selected: seq<Pair>)
      modifies this`hints
      ensures selected == Greedy(ordered, idle, capacity)
      ensures hints == Hinted(old(hints), selected)
    {
      selected := [];
      var available, i, full := idle, 0, false;
      SelectingStart(ordered, idle, capacity);
      while i < |ordered| && !full
        invariant hints == Hinted(old(hints), selected)
        invariant Selecting(ordered, idle, capacity, i, available, selected, full)
        decreases |ordered| - i, !full
      {
        var candidates := Able(available, ordered[i].task);
        SelectingStep(ordered, idle, capacity, i, available, selected);
        if |candidates| > 0 {
          var chosen := Narrowest(candidates);
          var p := Pair(ordered[i].id, chosen.id);
          HintedMore(old(hints), selected, p);
          selected := selected + [p];
          hints := hints[p.task := p.agent];
          available := Without(available, chosen.id);
          full := |selected| >= capacity;
        }
        i := i + 1;
      }
      SelectingEnd(ordered, idle, capacity, i, available, selected, full);
    }

    /** Runs the loop over the turns; it answers where the loop stands after them. */
    method RunLoop(turns: seq<Turn>) returns (round: nat, running: map<Future, TaskId>, next: Future, outcome: Option<Outcome>)
      requires AllSound(turns)
      modifies this`hints
      ensures Loop(round, running, next, outcome) == Passes(config, turns, |turns|)
    {
      round, running, next, outcome := 0, map[], 0, None;
      var t := 0;
      while t < |turns| && outcome.None?
        invariant t <= |turns|
        invariant Loop(round, running, next, outcome) == Passes(config, turns, t)
      {
        assert SoundAt(turns, t);
        round, running, next, outcome := TakeTurn(turns[t], round, running, next);
        t := t + 1;
      }
      if t < |turns| { PassesStay(config, turns, t, |turns|); }
    }

    /** One pass of the loop. */
    method TakeTurn(turn: Turn, round: nat, running: map<Future, TaskId>, next: Future)
      returns (round': nat, running': map<Future, TaskId>, next': Future, outcome: Option<Outcome>)
      requires Sound(turn)
      modifies this`hints
      ensures Loop(round', running', next', outcome) == Pass(config, Loop(round, running, next, None), turn)
    {
      round', running', next', outcome := round, running, next, None;
      if round >= config.maxRounds {
        running', outcome := map[], Some(MaxRounds);
      } else if turn.paused {
        running', outcome := map[], Some(Paused);
      } else if turn.cancelled {
        running', outcome := map[], Some(Outcome.Cancelled);
      } else {
        var dispatched := DiscoverDispatchable(turn.board, turn.pending, turn.pool, running);
        if |dispatched| > 0 {
          round' := round + 1;
          running', next' := StartAll(running, next, dispatched);
        }
        assert Loop(round', running', next', None) == Launch(config, Loop(round, running, next, None), turn);
        running', outcome := WaitFor(turn, round', running', next');
      }
    }

    /** Waits for futures to finish, or decides why nothing is left to do. */
    method WaitFor(turn: Turn, ghost round: nat, running: map<Future, TaskId>, ghost next: Future)
      returns (left: map<Future, TaskId>, outcome: Option<Outcome>)
      ensures Loop(round, left, next, outcome) == Await(config, Loop(round, running, next, None), turn)
    {
      left, outcome := running, None;
      if |running| == 0 {
        var verdict := Resolve(turn.board, turn.now, Served(config, turn));
        if !verdict.Backoff? { outcome := Some(Resolved(verdict)); }
      } else {
        left := running - turn.done;
        if left != running {
          if turn.cancelledAfter {
            left, outcome := map[], Some(Outcome.Cancelled);
          } else if turn.pausedAfter {
            left, outcome := map[], Some(Paused);
          } else if turn.succeeded {
            outcome := Some(Finished);
          }
        }
      }
    }

    method StartAll(running: map<Future, TaskId>, next: Future, ids: seq<TaskId>) returns (all: map<Future, TaskId>, later: Future)
      ensures all == Started(running, next, ids) && later == next + |ids|
    {
      all, later := running, next;
      assert ids[0..] == ids;
      for i := 0 to |ids|
        invariant later == next + i && Started(running, next, ids) == Started(all, later, ids[i..])
      {
        assert ids[i..][1..] == ids[i + 1..];
        all, later := all[later := ids[i]], later + 1;
      }
    }
  }

  /** Where the selection loop stands: what it has selected and what the rest of the list will add. */
  ghost predicate Selecting(ordered: seq<Entry>, idle: seq<Agent>, capacity: nat, i: nat, available: seq<Agent>, selected: seq<Pair>, full: bool) {
    && i <= |ordered|
    && (full || |selected| == 0 || |selected| < capacity)
    && Greedy(ordered, idle, capacity) ==
         if full then selected else selected + GreedyFrom(ordered, i, available, Max(0, capacity - |selected|))
  }

  lemma {:induction false} SelectingStart(ordered: seq<Entry>, idle: seq<Agent>, capacity: nat)
    ensures Selecting(ordered, idle, capacity, 0, idle, [], false)
  {
    assert [] + Greedy(ordered, idle, capacity) == Greedy(ordered, idle, capacity);
  }

  lemma {:induction false} SelectingStep(ordered: seq<Entry>, idle: seq<Agent>, capacity: nat, i: nat, available: seq<Agent>, selected: seq<Pair>)
    requires Selecting(ordered, idle, capacity, i, available, selected, false) && i < |ordered|
    ensures var able := Able(available, ordered[i].task);
            if |able| == 0 then Selecting(ordered, idle, capacity, i + 1, available, selected, false)
            else
              var p := Pair(ordered[i].id, Chosen(available, ordered[i].task).id);
              Selecting(ordered, idle, capacity, i + 1, Without(available, p.agent), selected + [p], |selected| + 1 >= capacity)
  {
    var t := ordered[i].task;
    if |Able(available, t)| > 0 {
      var p := Pair(ordered[i].id, Chosen(available, t).id);
      Appends(selected, p, GreedyFrom(ordered, i + 1, Without(available, p.agent), Max(0, capacity - |selected| - 1)));
    }
  }

  lemma {:induction false} Appends(s: seq<Pair>, p: Pair, more: seq<Pair>)
    ensures s + ([p] + more) == (s + [p]) + more
  {}

  lemma {:induction false} SelectingEnd(ordered: seq<Entry>, idle: seq<Agent>, capacity: nat, i: nat, available: seq<Agent>, selected: seq<Pair>, full: bool)
    requires Selecting(ordered, idle, capacity, i, available, selected, full) && (i < |ordered| ==> full)
    ensures selected == Greedy(ordered, idle, capacity)
  {
    assert selected + [] == selected;
  }

  /** The agents planned for the tasks of a wave. */
  function Hinted(hints: map<TaskId, AgentId>, wave: seq<Pair>): map<TaskId, AgentId> {
    if |wave| == 0 then hints
    else Hinted(hints, wave[..|wave| - 1])[wave[|wave| - 1].task := wave[|wave| - 1].agent]
  }

  lemma {:induction false} HintedMore(hints: map<TaskId, AgentId>, wave: seq<Pair>, p: Pair)
    ensures Hinted(hints, wave + [p]) == Hinted(hints, wave)[p.task := p.agent]
  {
    assert (wave + [p])[..|wave|] == wave;
  }
}
