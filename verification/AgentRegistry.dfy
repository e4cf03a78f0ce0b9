/**
 The in-process agent registry: objects whose fields the operations update in place, each operation
 proved against its step on the pool of agent values.

 The clock and the length of a lease are inputs.
 */
module AgentRegistry {
  import opened Basics
  import opened Agents

  class AgentInstance {
    const agentId: AgentId
    const runId: RunId
    const capabilities: seq<Capability>
    const maxConcurrency: int
    var status: AgentStatus
    var currentTask: Option<TaskId>
    var lastHeartbeat: int

    ghost function Value(): Agent
      reads this
    {
      Agent(agentId, runId, capabilities, maxConcurrency, status, currentTask, lastHeartbeat)
    }

    constructor (id: AgentId, run: RunId, caps: seq<Capability>, maxConcurrency: int, now: int)
      ensures Value() == Agent(id, run, caps, maxConcurrency, Created, None, now)
    {
      agentId, runId, capabilities, this.maxConcurrency := id, run, caps, maxConcurrency;
      status, currentTask, lastHeartbeat := Created, None, now;
    }

    method UpdateStatus(to: AgentStatus) returns (ok: bool)
      modifies this`status
      ensures ok == Legal(old(status), to)
      ensures Value() == Moved(old(Value()), to)
    {
      ok := to in LegalTargets(status);
      if ok { status := to; }
    }

    /** A working agent is left stopping: its last release finishes the stop. */
    method Stop() returns (ok: bool)
      modifies this`status
      ensures ok == Legal(old(status), Stopping)
      ensures Value() == StoppedBy(old(Value()))
    {
      if status in {Claiming, Running} {
        ok := UpdateStatus(Stopping);
      } else {
        ok := UpdateStatus(Stopping);
        if ok { ok := UpdateStatus(Stopped); }
      }
    }

    /** Fails a working agent whose lease has run out. */
    method Expire(lease: int, now: int) returns (expired: bool)
      modifies this`status
      ensures Value() == Reaped(old(Value()), lease, now)
      ensures expired == (Holding(old(status)) && now - lastHeartbeat > lease)
    {
      expired := status in {Claiming, Running, Stopping} && now - lastHeartbeat > lease;
      if expired { var failed := UpdateStatus(Failed); }
    }

    method Heartbeat(now: int)
      modifies this`lastHeartbeat
      ensures Value() == old(Value()).(beat := now)
    {
      lastHeartbeat := now;
    }
  }

  ghost function Values(s: seq<AgentInstance>): (p: Pool)
    reads s
    ensures |p| == |s| && forall i | 0 <= i < |s| :: p[i] == s[i].Value()
  {
    seq(|s|, i requires 0 <= i < |s| reads s => s[i].Value())
  }

  /** Ids of the agents among the first n that a sweep reaps, in registration order. */
  function Expired(pool: Pool, n: nat, lease: int, now: int): seq<AgentId>
    requires n <= |pool|
  {
    if n == 0 then []
    else
      var last := pool[n - 1];
      Expired(pool, n - 1, lease, now) + if Holding(last.status) && now - last.beat > lease then [last.id] else []
  }

  /** The pool after the sweep has passed its first n agents. */
  ghost function Swept(pool: Pool, n: nat, lease: int, now: int): (swept: Pool)
    requires n <= |pool|
    ensures |swept| == |pool|
  {
    if n == 0 then pool else Swept(pool, n - 1, lease, now)[n - 1 := Reaped(pool[n - 1], lease, now)]
  }

  lemma {:induction false} SweptRest(pool: Pool, n: nat, i: nat, lease: int, now: int)
    requires n <= |pool| && i < |pool|
    ensures Swept(pool, n, lease, now)[i] == if i < n then Reaped(pool[i], lease, now) else pool[i]
    decreases n
  {
    if n > 0 { SweptRest(pool, n - 1, i, lease, now); }
  }

  lemma {:induction false} SweptIsReapAll(pool: Pool, lease: int, now: int)
    ensures Swept(pool, |pool|, lease, now) == ReapAll(pool, lease, now)
  {
    forall i: nat | i < |pool| ensures Swept(pool, |pool|, lease, now)[i] == Reaped(pool[i], lease, now) {
      SweptRest(pool, |pool|, i, lease, now);
    }
  }

  /** A sweep lists exactly the agents it fails. */
  lemma {:induction false} ExpiredAreTheFailed(pool: Pool, n: nat, lease: int, now: int, id: AgentId)
    requires n <= |pool|
    ensures id in Expired(pool, n, lease, now) <==>
            exists i :: 0 <= i < n && pool[i].id == id && pool[i].status != Failed
                        && ReapAll(pool, lease, now)[i].status == Failed
  {
    if n > 0 {
      ExpiredAreTheFailed(pool, n - 1, lease, now, id);
      if pool[n - 1].id == id && Holding(pool[n - 1].status) && now - pool[n - 1].beat > lease {
        assert ReapAll(pool, lease, now)[n - 1].status == Failed;
      }
    }
  }

  class AgentRegistry {
    const lease: int
    var agents: seq<AgentInstance>

    ghost predicate Valid()
      reads this, agents
    {
      DistinctIds(Values(agents))
    }

    ghost function View(): Pool
      reads this, agents
    {
      Values(agents)
    }

    constructor (lease: int)
      ensures Valid() && View() == [] && this.lease == lease
    {
      this.lease, agents := lease, [];
    }

    /** Position of the agent with this id, or the number of agents. */
    method Find(id: AgentId) returns (k: nat)
      requires Valid()
      ensures k == IndexOf(View(), id)
    {
      IndexOfIsFirst(View(), id);
      k := 0;
      while k < |agents| && agents[k].agentId != id
        invariant k <= |agents| && forall i | 0 <= i < k :: View()[i].id != id
      {
        k := k + 1;
      }
    }

    /** One object changed: so does its place in the view, and nothing else. */
    twostate lemma ChangedAt(k: nat)
      requires old(Valid()) && k < |agents| && agents == old(agents)
      requires agents[k].Value().id == old(agents[k].Value().id)
      requires forall i | 0 <= i < |agents| && agents[i] != agents[k] :: unchanged(agents[i])
      ensures Valid() && View() == old(View())[k := agents[k].Value()]
    {
      forall i | 0 <= i < |agents| && i != k ensures View()[i] == old(View()[i]) {
        assert old(View()[i].id != View()[k].id);
      }
    }

    method CreateAgent(id: AgentId, run: RunId, caps: seq<Capability>, maxConcurrency: int, now: int)
      returns (a: AgentInstance)
      requires Valid()
      modifies this`agents
      ensures Valid() && fresh(a) && a in agents
      ensures View() == Register(old(View()), Agent(id, run, caps, maxConcurrency, Idle, None, now))
    {
      a := new AgentInstance(id, run, caps, maxConcurrency, now);
      a.status := Idle;
      RegisterAgent(a, now);
    }

    /** Puts the object in the place of one with the same id, or at the end. */
    method RegisterAgent(a: AgentInstance, now: int)
      requires Valid()
      modifies this`agents, a`lastHeartbeat
      ensures Valid() && a in agents
      ensures a.Value() == old(a.Value()).(beat := now)
      ensures View() == Register(old(View()), a.Value())
    {
      ghost var pool := View();
      var k := Find(a.agentId);
      IndexOfIsFirst(pool, a.agentId);
      a.Heartbeat(now);
      assert forall i | 0 <= i < |agents| && i != k :: View()[i].id != a.agentId && View()[i] == pool[i];
      if k < |agents| {
        agents := agents[k := a];
        assert View() == pool[k := a.Value()];
      } else {
        agents := agents + [a];
        assert View() == pool + [a.Value()];
      }
      assert agents[k] == a;
      RegisterKeepsIds(pool, a.Value());
    }

    /** The order in which a search looks at the agents: the preferred one first. */
    method SearchOrder(preferred: Option<AgentId>) returns (order: seq<nat>)
      requires Valid()
      ensures OrderFor(View(), preferred, order)
    {
      var p := |agents|;
      if preferred.Some? && preferred.value != "" { p := Find(preferred.value); }
      order := PreferredFirst(|agents|, p);
    }

    /** The agent at the first position of the order that fits, or the number of agents. */
    method Search(order: seq<nat>, ghost preferred: Option<AgentId>, run: RunId, caps: set<Capability>) returns (k: nat)
      requires Valid() && OrderFor(View(), preferred, order)
      ensures k == FirstFit(View(), preferred, run, caps)
    {
      for j := 0 to |order|
        invariant forall i | 0 <= i < j :: !Fits(View()[order[i]], run, caps)
      {
        var agent := agents[order[j]];
        if agent.runId == run && agent.status == Idle && caps <= CapSet(agent.capabilities)
           && agent.maxConcurrency >= 1
        {
          assert agent.Value() == View()[order[j]];
          assert FirstIn(View(), order, j, run, caps);
          FirstInIsFirstFit(View(), order, preferred, j, run, caps);
          return order[j];
        }
      }
      NoneInNoFit(View(), preferred, order, run, caps);
      return |agents|;
    }

    /** All required capabilities first, then the primary ones alone if that is less and not nothing. */
    method SearchPasses(run: RunId, required: set<Capability>, preferred: Option<AgentId>) returns (k: nat)
      requires Valid()
      ensures k == ReserveIndex(View(), run, required, preferred)
    {
      var stripped := set c | c in required && c in PRIMARY;
      assert stripped == required * PRIMARY;
      var useCaps := [required];
      if stripped != {} && stripped != required { useCaps := [required, stripped]; }
      var order := SearchOrder(preferred);
      for n := 0 to |useCaps|
        invariant n >= 1 ==> FirstFit(View(), preferred, run, required) == |agents|
        invariant n == 2 ==> FirstFit(View(), preferred, run, stripped) == |agents|
      {
        k := Search(order, preferred, run, useCaps[n]);
        if k < |agents| { return; }
      }
      return |agents|;
    }

    method ReserveIdleAgent(run: RunId, required: set<Capability>, task: TaskId, preferred: Option<AgentId>, now: int)
      returns (reserved: AgentInstance?)
      requires Valid()
      modifies agents
      ensures Valid() && agents == old(agents)
      ensures View() == ReserveIn(old(View()), run, required, task, preferred, now)
      ensures var k := ReserveIndex(old(View()), run, required, preferred);
              reserved == if k < |agents| then agents[k] else null
    {
      var k := SearchPasses(run, required, preferred);
      if k == |agents| { return null; }
      Claim(k, task, now);
      return agents[k];
    }

    method Claim(k: nat, task: TaskId, now: int)
      requires Valid() && k < |agents|
      modifies agents
      ensures Valid() && agents == old(agents)
      ensures View() == old(View())[k := Reserved(old(View()[k]), task, now)]
    {
      var claimed := agents[k].UpdateStatus(Claiming);
      agents[k].currentTask := Some(task);
      agents[k].Heartbeat(now);
      ChangedAt(k);
    }

    method ReleaseReservation(id: AgentId, task: TaskId, now: int) returns (ok: bool)
      requires Valid()
      modifies agents
      ensures Valid() && agents == old(agents)
      ensures View() == ChangeAt(old(View()), id, Release(id, task), now)
      ensures ok <==> var k := IndexOf(old(View()), id);
                      && k < |agents| && Holding(old(View())[k].status)
                      && (task == "" || old(View())[k].task == Some(task))
    {
      var k := Find(id);
      if k == |agents| { return false; }
      var agent := agents[k];
      if task != "" && agent.currentTask != Some(task) { return false; }
      if agent.status !in {Claiming, Running, Stopping} { return false; }
      var moved;
      if agent.status == Stopping {
        moved := agent.UpdateStatus(Stopped);
      } else {
        moved := agent.UpdateStatus(Idle);
      }
      agent.currentTask := None;
      agent.Heartbeat(now);
      ChangedAt(k);
      return true;
    }

    method Transition(id: AgentId, to: AgentStatus) returns (ok: bool)
      requires Valid()
      modifies agents
      ensures Valid() && agents == old(agents)
      ensures var k := IndexOf(old(View()), id);
              && (ok <==> k < |agents| && Legal(old(View())[k].status, to))
              && View() == if k == |agents| then old(View()) else old(View())[k := Moved(old(View())[k], to)]
      ensures to == Running ==> forall now :: View() == ChangeAt(old(View()), id, Start(id), now)
    {
      var k := Find(id);
      if k == |agents| { return false; }
      ok := agents[k].UpdateStatus(to);
      ChangedAt(k);
    }

    method Heartbeat(id: AgentId, now: int) returns (ok: bool)
      requires Valid()
      modifies agents
      ensures Valid() && agents == old(agents)
      ensures View() == ChangeAt(old(View()), id, Agents.Event.Heartbeat(id), now)
      ensures ok <==> IndexOf(old(View()), id) < |agents|
    {
      var k := Find(id);
      ok := k < |agents|;
      if ok {
        agents[k].Heartbeat(now);
        ChangedAt(k);
      }
    }

    method CleanupExpired(now: int) returns (expired: seq<AgentId>)
      requires Valid()
      modifies agents
      ensures Valid() && agents == old(agents)
      ensures View() == ReapAll(old(View()), lease, now)
      ensures expired == Expired(old(View()), |agents|, lease, now)
    {
      expired := [];
      ghost var pool := View();
      for i := 0 to |agents|
        invariant Valid() && View() == Swept(pool, i, lease, now)
        invariant expired == Expired(pool, i, lease, now)
      {
        label before:
        SweptRest(pool, i, i, lease, now);
        var failed := agents[i].Expire(lease, now);
        ChangedAt@before(i);
        if failed { expired := expired + [agents[i].agentId]; }
      }
      SweptIsReapAll(pool, lease, now);
    }

    method Stop(id: AgentId) returns (ok: bool)
      requires Valid()
      modifies agents
      ensures Valid() && agents == old(agents)
      ensures View() == StopAt(old(View()), id)
      ensures ok <==> var k := IndexOf(old(View()), id);
                      k < |agents| && Legal(old(View())[k].status, Stopping)
    {
      var k := Find(id);
      if k == |agents| || agents[k].status == Stopped { return false; }
      ok := agents[k].Stop();
      ChangedAt(k);
    }
  }

  lemma {:induction false} RegisterKeepsIds(pool: Pool, a: Agent)
    requires DistinctIds(pool)
    ensures DistinctIds(Register(pool, a))
  {
    IndexOfIsFirst(pool, a.id);
  }

  /** The positions below n, p before the others. */
  function PreferredFirst(n: nat, p: nat): (order: seq<nat>)
    ensures |order| == n
  {
    seq(n, i requires 0 <= i < n => if p >= n || i > p then i else if i == 0 then p else i - 1)
  }

  ghost predicate OrderFor(pool: Pool, preferred: Option<AgentId>, order: seq<nat>) {
    order == PreferredFirst(|pool|, Preferred(pool, preferred))
  }

  /** Position j is the first of the order whose agent fits. */
  ghost predicate FirstIn(pool: Pool, order: seq<nat>, j: int, run: RunId, caps: set<Capability>) {
    && 0 <= j < |order| && order[j] < |pool|
    && Fits(pool[order[j]], run, caps)
    && forall i | 0 <= i < j :: order[i] < |pool| && !Fits(pool[order[i]], run, caps)
  }

  /** Where in the order an agent stands. */
  function Place(n: nat, p: nat, i: nat): (m: nat)
    requires i < n
    ensures m < n && PreferredFirst(n, p)[m] == i
  {
    if p >= n || i > p then i else if i == p then 0 else i + 1
  }

  lemma {:induction false} NoneInNoFit(pool: Pool, preferred: Option<AgentId>, order: seq<nat>, run: RunId, caps: set<Capability>)
    requires OrderFor(pool, preferred, order)
    requires forall j | 0 <= j < |order| :: order[j] < |pool| && !Fits(pool[order[j]], run, caps)
    ensures FirstFit(pool, preferred, run, caps) == |pool|
  {
    forall i: nat | i < |pool| ensures !Fits(pool[i], run, caps) {
      var m := Place(|pool|, Preferred(pool, preferred), i);
      assert order[m] == i;
    }
  }

  lemma {:induction false} FirstInIsFirstFit(pool: Pool, order: seq<nat>, preferred: Option<AgentId>, j: nat, run: RunId, caps: set<Capability>)
    requires OrderFor(pool, preferred, order) && FirstIn(pool, order, j, run, caps)
    ensures order[j] == FirstFit(pool, preferred, run, caps)
  {
    var p, k := Preferred(pool, preferred), order[j];
    FirstFromIsFirst(pool, 0, run, caps);
    if p < |pool| && Fits(pool[p], run, caps) {
      assert order[0] == p;
    } else {
      forall i: nat | i < k ensures !Fits(pool[i], run, caps) {
        var m := Place(|pool|, p, i);
        assert order[m] == i;
        if i != p { assert m < j; }
      }
    }
  }

  type AssignmentId = string

  datatype Assignment = Assignment(run: RunId, agent: AgentId)

  /** Operator control over the agents of a run. */
  class AgentRuntimeManager {
    const registry: AgentRegistry
    var active: map<AssignmentId, Assignment>
    var cancelled: set<AssignmentId>

    constructor (registry: AgentRegistry)
      ensures this.registry == registry && active == map[] && cancelled == {}
    {
      this.registry, active, cancelled := registry, map[], {};
    }

    method PauseAgent(run: RunId, id: AgentId) returns (ok: bool)
      requires registry.Valid()
      modifies registry.agents
      ensures registry.Valid() && registry.agents == old(registry.agents)
      ensures forall now :: registry.View() == ChangeAt(old(registry.View()), id, Pause(run, id), now)
      ensures ok <==> var k := IndexOf(old(registry.View()), id);
                      k < |registry.agents| && old(registry.View())[k].run == run && old(registry.View())[k].status == Idle
    {
      var k := registry.Find(id);
      if k == |registry.agents| || registry.agents[k].runId != run || registry.agents[k].status != Idle {
        return false;
      }
      ok := registry.Transition(id, Blocked);
    }

    method ResumeAgent(run: RunId, id: AgentId) returns (ok: bool)
      requires registry.Valid()
      modifies registry.agents
      ensures registry.Valid() && registry.agents == old(registry.agents)
      ensures forall now :: registry.View() == ChangeAt(old(registry.View()), id, Resume(run, id), now)
      ensures ok <==> var k := IndexOf(old(registry.View()), id);
                      k < |registry.agents| && old(registry.View())[k].run == run && old(registry.View())[k].status == Blocked
    {
      var k := registry.Find(id);
      if k == |registry.agents| || registry.agents[k].runId != run || registry.agents[k].status != Blocked {
        return false;
      }
      ok := registry.Transition(id, Idle);
    }

    /** The assignments of an agent in a run that are under way. */
    function Assigned(run: RunId, id: AgentId): set<AssignmentId>
      reads this
    {
      set x | x in active && active[x] == Assignment(run, id)
    }

    /** Signals them; how many there are. */
    method CancelAgent(run: RunId, id: AgentId) returns (count: nat)
      modifies this`cancelled
      ensures cancelled == old(cancelled) + Assigned(run, id) && count == |Assigned(run, id)|
    {
      cancelled := cancelled + Assigned(run, id);
      count := |Assigned(run, id)|;
    }

    /** Cancels the agent's own assignments and no others, then stops it. */
    method StopAgent(run: RunId, id: AgentId) returns (ok: bool)
      requires registry.Valid()
      modifies this`cancelled, registry.agents
      ensures registry.Valid() && registry.agents == old(registry.agents)
      ensures var pool := old(registry.View());
              var k := IndexOf(pool, id);
              if k == |pool| || pool[k].run != run then
                registry.View() == pool && cancelled == old(cancelled) && !ok
              else
                && registry.View() == StopAt(pool, id) && ok == Legal(pool[k].status, Stopping)
                && cancelled == old(cancelled) + Assigned(run, id)
    {
      var k := registry.Find(id);
      if k == |registry.agents| || registry.agents[k].runId != run {
        return false;
      }
      var count := CancelAgent(run, id);
      ok := registry.Stop(id);
    }
  }
}
