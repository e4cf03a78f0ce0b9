/**
 The agent lifecycle: the transition table, the registry operations on a pool of agents, and what
 every run of them keeps.

 A pool lists the agents in registration order. Every operation is one atomic step.
 */
module Agents {
  import opened Basics

  datatype AgentStatus =
    | Created | Spawning | Idle | Claiming | Planning | WaitingPlanApproval | Running
    | WaitingTool | WaitingPermission | Blocked | Failed | Stopping | Stopped | Recovering

  function LegalTargets(s: AgentStatus): set<AgentStatus> {
    match s
    case Created => {Spawning, Idle, Stopped}
    case Spawning => {Idle, Failed}
    case Idle => {Claiming, Running, Blocked, Failed, Stopping, Stopped}
    case Claiming => {Planning, Running, Idle, Failed, Stopping}
    case Planning => {WaitingPlanApproval, Running, Idle, Failed, Stopping}
    case WaitingPlanApproval => {Planning, Running, Idle, Failed, Stopping}
    case Running => {Idle, WaitingTool, WaitingPermission, Blocked, Failed, Stopping}
    case WaitingTool => {Running, Idle, Failed}
    case WaitingPermission => {Running, Idle, Failed, Stopping}
    case Blocked => {Running, Idle, Failed, Stopping}
    case Failed => {Idle, Stopping, Stopped, Recovering}
    case Stopping => {Stopped, Failed}
    case Stopped => {}
    case Recovering => {Idle, Failed, Stopped}
  }

  predicate Legal(from: AgentStatus, to: AgentStatus) {
    to in LegalTargets(from)
  }

  datatype Agent = Agent(
    id: AgentId,
    run: RunId,
    capabilities: seq<Capability>,
    maxConcurrency: int,
    status: AgentStatus,
    task: Option<TaskId>,
    beat: int)

  type Pool = seq<Agent>

  ghost predicate DistinctIds(pool: Pool) {
    forall i, j | 0 <= i < j < |pool| :: pool[i].id != pool[j].id
  }

  /** Position of the agent with this id, or |pool|. */
  function IndexOf(pool: Pool, id: AgentId): (k: nat)
    ensures k <= |pool| && (k < |pool| ==> pool[k].id == id)
  {
    IndexWhere(pool, (x: Agent) => x.id == id)
  }

  lemma {:induction false} IndexOfIsFirst(pool: Pool, id: AgentId)
    ensures forall i | 0 <= i < IndexOf(pool, id) :: pool[i].id != id
  {
    IndexWhereIsFirst(pool, (x: Agent) => x.id == id);
  }

  function Moved(a: Agent, to: AgentStatus): Agent {
    if Legal(a.status, to) then a.(status := to) else a
  }

  function CapSet(caps: seq<Capability>): set<Capability> {
    set c | c in caps
  }

  // ----- Operations -----

  const PRIMARY: set<Capability> :=
    {"planning", "research", "coding", "testing", "reviewing", "summarization"}

  predicate Fits(a: Agent, run: RunId, caps: set<Capability>) {
    a.run == run && a.status == Idle && caps <= CapSet(a.capabilities) && a.maxConcurrency >= 1
  }

  function Preferred(pool: Pool, preferred: Option<AgentId>): (p: nat)
    ensures p <= |pool|
  {
    if preferred.Some? && preferred.value != "" then IndexOf(pool, preferred.value) else |pool|
  }

  /** The first agent that fits, the preferred one being looked at before the others. */
  function FirstFit(pool: Pool, preferred: Option<AgentId>, run: RunId, caps: set<Capability>): (k: nat)
    ensures k <= |pool| && (k < |pool| ==> Fits(pool[k], run, caps))
  {
    var p := Preferred(pool, preferred);
    if p < |pool| && Fits(pool[p], run, caps) then p else FirstFrom(pool, 0, run, caps)
  }

  function FirstFrom(pool: Pool, i: nat, run: RunId, caps: set<Capability>): (k: nat)
    requires i <= |pool|
    ensures i <= k <= |pool| && (k < |pool| ==> Fits(pool[k], run, caps))
    decreases |pool| - i
  {
    if i == |pool| || Fits(pool[i], run, caps) then i else FirstFrom(pool, i + 1, run, caps)
  }

  lemma {:induction false} FirstFromIsFirst(pool: Pool, i: nat, run: RunId, caps: set<Capability>)
    requires i <= |pool|
    ensures forall j | i <= j < FirstFrom(pool, i, run, caps) :: !Fits(pool[j], run, caps)
    decreases |pool| - i
  {
    if i < |pool| && !Fits(pool[i], run, caps) { FirstFromIsFirst(pool, i + 1, run, caps); }
  }

  /** The search fails exactly when no agent fits. */
  lemma {:induction false} FirstFitFinds(pool: Pool, preferred: Option<AgentId>, run: RunId, caps: set<Capability>)
    ensures FirstFit(pool, preferred, run, caps) < |pool| <==> exists i :: 0 <= i < |pool| && Fits(pool[i], run, caps)
  {
    FirstFromIsFirst(pool, 0, run, caps);
  }

  /** All required capabilities first; then, if that fails, only those that name a primary role. */
  function ReserveIndex(pool: Pool, run: RunId, required: set<Capability>, preferred: Option<AgentId>): (k: nat)
    ensures k <= |pool|
  {
    var stripped := required * PRIMARY;
    var k := FirstFit(pool, preferred, run, required);
    if k < |pool| || stripped == {} || stripped == required then k
    else FirstFit(pool, preferred, run, stripped)
  }

  datatype Event =
    | Create(id: AgentId, run: RunId, capabilities: seq<Capability>, maxConcurrency: int)
    | Reserve(run: RunId, required: set<Capability>, task: TaskId, preferred: Option<AgentId>)
    | Start(id: AgentId)
    | Pause(run: RunId, id: AgentId)
    | Resume(run: RunId, id: AgentId)
    | Release(id: AgentId, task: TaskId)
    | Stop(id: AgentId)
    | Reap(lease: int)
    | Heartbeat(id: AgentId)

  function Register(pool: Pool, a: Agent): Pool {
    var k := IndexOf(pool, a.id);
    if k < |pool| then pool[k := a] else pool + [a]
  }

  function Holding(s: AgentStatus): bool {
    s in {Claiming, Running, Stopping}
  }

  function Released(a: Agent, task: TaskId, now: int): Agent {
    if (task != "" && a.task != Some(task)) || !Holding(a.status) then a
    else Moved(a, if a.status == Stopping then Stopped else Idle).(task := None, beat := now)
  }

  function StoppedBy(a: Agent): Agent {
    if a.status in {Claiming, Running} then Moved(a, Stopping)
    else if Legal(a.status, Stopping) then Moved(Moved(a, Stopping), Stopped)
    else a
  }

  function Reaped(a: Agent, lease: int, now: int): Agent {
    if Holding(a.status) && now - a.beat > lease then Moved(a, Failed) else a
  }

  function Reserved(a: Agent, task: TaskId, now: int): Agent {
    Moved(a, Claiming).(task := Some(task), beat := now)
  }

  function ReserveIn(pool: Pool, run: RunId, required: set<Capability>, task: TaskId, preferred: Option<AgentId>, now: int): Pool {
    var k := ReserveIndex(pool, run, required, preferred);
    if k == |pool| then pool else pool[k := Reserved(pool[k], task, now)]
  }

  function ReapAll(pool: Pool, lease: int, now: int): Pool {
    seq(|pool|, i requires 0 <= i < |pool| => Reaped(pool[i], lease, now))
  }

  function ChangeAt(pool: Pool, id: AgentId, e: Event, now: int): Pool
    requires !e.Create? && !e.Reserve? && !e.Reap?
  {
    var k := IndexOf(pool, id);
    if k == |pool| then pool else pool[k := Changed(pool[k], e, now)]
  }

  function Apply(pool: Pool, e: Event, now: int): Pool {
    match e
    case Create(id, run, caps, n) => Register(pool, Agent(id, run, caps, n, Idle, None, now))
    case Reserve(run, required, task, preferred) => ReserveIn(pool, run, required, task, preferred, now)
    case Reap(lease) => ReapAll(pool, lease, now)
    case _ => ChangeAt(pool, e.id, e, now)
  }

  function StopAt(pool: Pool, id: AgentId): Pool {
    var k := IndexOf(pool, id);
    if k == |pool| then pool else pool[k := StoppedBy(pool[k])]
  }

  /** What the operations on one agent do to it. */
  function Changed(a: Agent, e: Event, now: int): Agent
    requires !e.Create? && !e.Reserve? && !e.Reap?
  {
    match e
    case Start(_) => Moved(a, Running)
    case Pause(run, _) => if a.run == run && a.status == Idle then Moved(a, Blocked) else a
    case Resume(run, _) => if a.run == run && a.status == Blocked then Moved(a, Idle) else a
    case Release(_, task) => Released(a, task, now)
    case Stop(_) => StoppedBy(a)
    case Heartbeat(_) => a.(beat := now)
  }

  // ----- Runs -----

  /** Pending releases: the assignments that have reserved an agent and not released it yet. */
  datatype World = World(pool: Pool, live: set<(AgentId, TaskId)>)

  /** Ids of new agents are fresh, and only the assignment that reserved an agent starts or releases it. */
  ghost predicate Enabled(w: World, e: Event) {
    match e
    case Create(id, _, _, _) => forall i | 0 <= i < |w.pool| :: w.pool[i].id != id
    case Start(id) => exists t :: (id, t) in w.live
    case Release(id, task) => (id, task) in w.live
    case _ => true
  }

  function Step(w: World, e: Event, now: int): World {
    var live := match e
      case Reserve(run, required, task, preferred) =>
        var k := ReserveIndex(w.pool, run, required, preferred);
        if k == |w.pool| then w.live else w.live + {(w.pool[k].id, task)}
      case Release(id, task) => w.live - {(id, task)}
      case _ => w.live;
    World(Apply(w.pool, e, now), live)
  }

  function LiveTasks(live: set<(AgentId, TaskId)>, id: AgentId): set<TaskId> {
    set p | p in live && p.0 == id :: p.1
  }

  /** An agent holds a task exactly while it is claiming, running or stopping, and one assignment owns it. */
  ghost predicate AgentOk(a: Agent, live: set<(AgentId, TaskId)>) {
    match a.status
    case Idle => a.task == None && LiveTasks(live, a.id) == {}
    case Blocked => a.task == None && LiveTasks(live, a.id) == {}
    case Claiming => a.task.Some? && LiveTasks(live, a.id) == {a.task.value}
    case Running => a.task.Some? && LiveTasks(live, a.id) == {a.task.value}
    case Stopping => a.task.Some? && LiveTasks(live, a.id) == {a.task.value}
    case Failed => |LiveTasks(live, a.id)| <= 1
    case Stopped => |LiveTasks(live, a.id)| <= 1
    case _ => false
  }

  ghost predicate Inv(w: World) {
    && DistinctIds(w.pool)
    && (forall i | 0 <= i < |w.pool| :: AgentOk(w.pool[i], w.live))
    && forall p | p in w.live :: IndexOf(w.pool, p.0) < |w.pool|
  }

  lemma {:induction false} IndexOfIs(pool: Pool, k: nat)
    requires DistinctIds(pool) && k < |pool|
    ensures IndexOf(pool, pool[k].id) == k
  {
    IndexOfIsFirst(pool, pool[k].id);
  }

  /** Ids registered before are registered still. */
  lemma {:induction false} IdsStay(pool: Pool, next: Pool, live: set<(AgentId, TaskId)>)
    requires |pool| <= |next| && forall i | 0 <= i < |pool| :: pool[i].id == next[i].id
    requires forall p | p in live :: IndexOf(pool, p.0) < |pool|
    ensures forall p | p in live :: IndexOf(next, p.0) < |next|
  {
    forall p | p in live ensures IndexOf(next, p.0) < |next| {
      var k := IndexOf(pool, p.0);
      assert pool[k].id == p.0;
      IndexOfIsFirst(next, p.0);
    }
  }

  lemma {:induction false} LiveElsewhere(live: set<(AgentId, TaskId)>, more: set<(AgentId, TaskId)>, id: AgentId)
    requires forall p: (AgentId, TaskId) | p.0 == id :: p in live <==> p in more
    ensures LiveTasks(live, id) == LiveTasks(more, id)
  {}

  /** Replacing one agent by an acceptable one keeps the invariant. */
  lemma {:induction false} ReplaceKeeps(w: World, k: nat, a: Agent, live: set<(AgentId, TaskId)>)
    requires Inv(w) && k < |w.pool| && a.id == w.pool[k].id && AgentOk(a, live)
    requires forall p: (AgentId, TaskId) | p.0 != a.id :: p in w.live <==> p in live
    ensures Inv(World(w.pool[k := a], live))
  {
    var pool := w.pool[k := a];
    forall i | 0 <= i < |pool| ensures AgentOk(pool[i], live) {
      if i != k { LiveElsewhere(w.live, live, pool[i].id); }
    }
    forall p | p in live ensures IndexOf(w.pool, p.0) < |w.pool| {
      if p.0 == a.id { IndexOfIsFirst(w.pool, a.id); }
    }
    IdsStay(w.pool, pool, live);
  }

  lemma {:induction false} StepKeepsInv(w: World, e: Event, now: int)
    requires Inv(w) && Enabled(w, e)
    ensures Inv(Step(w, e, now))
  {
    match e
    case Create(id, run, caps, n) => CreateKeeps(w, e, now);
    case Reserve(run, required, task, preferred) =>
      var k := ReserveIndex(w.pool, run, required, preferred);
      if k < |w.pool| { ReserveKeeps(w, k, task, now); }
    case Reap(lease) => ReapKeeps(w, lease, now);
    case _ =>
      var k := IndexOf(w.pool, e.id);
      if k < |w.pool| { ChangeKeeps(w, e, k, now); }
  }

  lemma {:induction false} CreateKeeps(w: World, e: Event, now: int)
    requires Inv(w) && e.Create? && Enabled(w, e)
    ensures Inv(Step(w, e, now))
  {
    var a := Agent(e.id, e.run, e.capabilities, e.maxConcurrency, Idle, None, now);
    var pool := w.pool + [a];
    assert Apply(w.pool, e, now) == pool;
    forall p | p in w.live ensures p.0 != a.id {
      assert w.pool[IndexOf(w.pool, p.0)].id == p.0;
    }
    IdsStay(w.pool, pool, w.live);
    assert LiveTasks(w.live, a.id) == {};
  }

  lemma {:induction false} ReserveKeeps(w: World, k: nat, task: TaskId, now: int)
    requires Inv(w) && k < |w.pool| && w.pool[k].status == Idle
    ensures Inv(World(w.pool[k := Reserved(w.pool[k], task, now)], w.live + {(w.pool[k].id, task)}))
  {
    var id, live := w.pool[k].id, w.live + {(w.pool[k].id, task)};
    forall t | t in LiveTasks(live, id) ensures t == task {
      assert (id, t) in live;
      assert (id, t) in w.live ==> t in LiveTasks(w.live, id);
    }
    assert (id, task) in live;
    assert LiveTasks(live, id) == {task};
    ReplaceKeeps(w, k, Reserved(w.pool[k], task, now), live);
  }

  lemma {:induction false} ReapedOk(a: Agent, live: set<(AgentId, TaskId)>, lease: int, now: int)
    requires AgentOk(a, live)
    ensures AgentOk(Reaped(a, lease, now), live)
  {}

  lemma {:induction false} ReapKeeps(w: World, lease: int, now: int)
    requires Inv(w)
    ensures Inv(Step(w, Reap(lease), now))
  {
    var pool := Apply(w.pool, Reap(lease), now);
    forall i | 0 <= i < |pool| ensures AgentOk(pool[i], w.live) && pool[i].id == w.pool[i].id {
      ReapedOk(w.pool[i], w.live, lease, now);
    }
    IdsStay(w.pool, pool, w.live);
  }

  lemma {:induction false} ChangeKeeps(w: World, e: Event, k: nat, now: int)
    requires Inv(w) && Enabled(w, e) && !e.Create? && !e.Reserve? && !e.Reap?
    requires k == IndexOf(w.pool, e.id) < |w.pool|
    ensures Inv(Step(w, e, now))
  {
    var live := Step(w, e, now).live;
    if e.Release? {
      ReleaseTakes(w.live, e.id, e.task);
      ReleasedOk(w.pool[k], w.live, e.task, now);
    } else {
      if e.Start? {
        var t :| (e.id, t) in w.live;
        assert t in LiveTasks(w.live, e.id);
      }
      ChangedOk(w.pool[k], e, w.live, now);
    }
    ReplaceKeeps(w, k, Changed(w.pool[k], e, now), live);
  }

  lemma {:induction false} ChangedOk(a: Agent, e: Event, live: set<(AgentId, TaskId)>, now: int)
    requires AgentOk(a, live) && !e.Create? && !e.Reserve? && !e.Reap? && !e.Release?
    requires e.Start? ==> LiveTasks(live, a.id) != {}
    ensures AgentOk(Changed(a, e, now), live)
  {}

  lemma {:induction false} ReleaseTakes(live: set<(AgentId, TaskId)>, id: AgentId, task: TaskId)
    requires (id, task) in live
    ensures task in LiveTasks(live, id)
    ensures LiveTasks(live - {(id, task)}, id) <= LiveTasks(live, id) - {task}
  {
    assert task in LiveTasks(live, id);
  }

  lemma {:induction false} ReleasedOk(a: Agent, live: set<(AgentId, TaskId)>, task: TaskId, now: int)
    requires AgentOk(a, live) && (a.id, task) in live
    ensures AgentOk(Released(a, task, now), live - {(a.id, task)})
  {
    ReleaseTakes(live, a.id, task);
    SubsetSmall(LiveTasks(live, a.id), LiveTasks(live - {(a.id, task)}, a.id), task);
  }

  lemma {:induction false} SubsetSmall(s: set<TaskId>, r: set<TaskId>, t: TaskId)
    requires t in s && r <= s - {t}
    ensures |s| <= 1 ==> r == {}
    ensures forall u | s == {u} :: r == {} && u == t
  {
    assert |s - {t}| == |s| - 1;
  }

  // ----- Whole runs -----

  datatype Tick = Tick(event: Event, now: int)

  function Run(w: World, ticks: seq<Tick>): World
    decreases |ticks|
  {
    if |ticks| == 0 then w else Run(Step(w, ticks[0].event, ticks[0].now), ticks[1..])
  }

  ghost predicate RunEnabled(w: World, ticks: seq<Tick>)
    decreases |ticks|
  {
    |ticks| > 0 ==>
      && Enabled(w, ticks[0].event)
      && RunEnabled(Step(w, ticks[0].event, ticks[0].now), ticks[1..])
  }

  predicate Ending(s: AgentStatus) {
    s in {Stopping, Failed, Stopped}
  }

  /** Agents stay at their place in the pool, and one that is ending never comes back. */
  ghost predicate Later(was: Pool, next: Pool) {
    && |was| <= |next|
    && (forall i | 0 <= i < |was| :: was[i].id == next[i].id)
    && (forall i | 0 <= i < |was| :: Ending(was[i].status) ==> Ending(next[i].status))
    && forall i | 0 <= i < |was| :: was[i].status == Stopped ==> next[i].status == Stopped
  }

  ghost predicate AgentLater(a: Agent, b: Agent) {
    a.id == b.id && (Ending(a.status) ==> Ending(b.status)) && (a.status == Stopped ==> b.status == Stopped)
  }

  lemma {:induction false} ChangedIsLater(a: Agent, e: Event, now: int)
    requires !e.Create? && !e.Reserve? && !e.Reap?
    ensures AgentLater(a, Changed(a, e, now))
  {}

  lemma {:induction false} StepIsLater(w: World, e: Event, now: int)
    requires Enabled(w, e)
    ensures Later(w.pool, Step(w, e, now).pool)
  {
    var next := Step(w, e, now).pool;
    match e
    case Create(_, _, _, _) =>
    case Reserve(_, _, _, _) =>
    case Reap(lease) =>
      forall i | 0 <= i < |next| ensures AgentLater(w.pool[i], next[i]) {}
    case _ =>
      var k := IndexOf(w.pool, e.id);
      if k < |w.pool| { ChangedIsLater(w.pool[k], e, now); }
  }

  /** Over every run: the task an agent holds follows its status, ending agents never come back and
      STOPPED is final. */
  lemma {:induction false} LifecycleOverRuns(w: World, ticks: seq<Tick>)
    requires Inv(w) && RunEnabled(w, ticks)
    ensures Inv(Run(w, ticks)) && Later(w.pool, Run(w, ticks).pool)
    decreases |ticks|
  {
    if |ticks| > 0 {
      var next := Step(w, ticks[0].event, ticks[0].now);
      StepKeepsInv(w, ticks[0].event, ticks[0].now);
      StepIsLater(w, ticks[0].event, ticks[0].now);
      LifecycleOverRuns(next, ticks[1..]);
    }
  }

  /** From an empty registry: what a reader may rely on about any agent at any time. */
  lemma {:induction false} ReachableAgents(ticks: seq<Tick>, i: nat)
    requires RunEnabled(World([], {}), ticks)
    requires i < |Run(World([], {}), ticks).pool|
    ensures var a := Run(World([], {}), ticks).pool[i];
            && a.status in {Idle, Claiming, Running, Blocked, Stopping, Failed, Stopped}
            && (a.status in {Idle, Blocked} ==> a.task == None)
            && (Holding(a.status) ==> a.task.Some?)
  {
    LifecycleOverRuns(World([], {}), ticks);
  }

  /** The owner of an agent finds it holding that task, or ended: a release that goes through is a
      legal move and leaves the agent idle or stopped. */
  lemma {:induction false} ReleaseEndsTheLease(w: World, id: AgentId, task: TaskId, now: int)
    requires Inv(w) && Enabled(w, Release(id, task))
    ensures var k := IndexOf(w.pool, id);
            var next := Step(w, Release(id, task), now);
            && k < |w.pool|
            && (Holding(w.pool[k].status) ==>
                  && w.pool[k].task == Some(task) && next.pool[k].task == None
                  && next.pool[k].status == if w.pool[k].status == Stopping then Stopped else Idle)
            && (!Holding(w.pool[k].status) ==> Ending(w.pool[k].status) && next.pool == w.pool)
            && LiveTasks(next.live, id) == {}
  {
    var k := IndexOf(w.pool, id);
    assert (id, task) in w.live;
    assert task in LiveTasks(w.live, id);
    var live := Step(w, Release(id, task), now).live;
    assert !((id, task) in live);
    assert LiveTasks(live, id) <= LiveTasks(w.live, id) - {task};
    SubsetSmall(LiveTasks(w.live, id), LiveTasks(live, id), task);
  }

  /** No operation asks the transition table for a move it refuses, except a start: it goes through exactly
      while the agent is claiming, and is refused once the agent has ended or was started before. */
  lemma {:induction false} NoIllegalMoves(w: World, e: Event, k: nat)
    requires Inv(w) && Enabled(w, e) && k < |w.pool|
    ensures var s := w.pool[k].status;
            && (e.Reap? && Holding(s) ==> Legal(s, Failed))
            && (e.Start? && e.id == w.pool[k].id ==>
                  (Legal(s, Running) <==> s == Claiming) && (s == Claiming || s == Running || Ending(s)))
            && (e.Reserve? && k == ReserveIndex(w.pool, e.run, e.required, e.preferred) ==> Legal(s, Claiming))
            && (e.Stop? && s !in {Stopping, Stopped} ==>
                  Legal(s, Stopping) && (s in {Claiming, Running} || Legal(Stopping, Stopped)))
  {
    if e.Start? && e.id == w.pool[k].id {
      var t :| (e.id, t) in w.live;
      assert t in LiveTasks(w.live, e.id);
    }
    ReserveIdle(w.pool, e, k);
  }

  lemma {:induction false} ReserveIdle(pool: Pool, e: Event, k: nat)
    requires k < |pool|
    ensures e.Reserve? && k == ReserveIndex(pool, e.run, e.required, e.preferred) ==> pool[k].status == Idle
  {}
}
