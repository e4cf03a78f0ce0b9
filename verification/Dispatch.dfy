/**
 One dispatch wave: which ready tasks go to which idle agents, and how good that matching is.
 */
module Dispatch {
  import opened Basics
  import opened Sorting
  import opened Agents
  import opened Reservation
  import opened TaskBoard

  /** A ready task with the number of idle agents that can serve it. */
  datatype Entry = Entry(id: TaskId, task: Task, choices: nat)

  datatype Pair = Pair(task: TaskId, agent: AgentId)

  predicate Serves(a: Agent, t: Task) {
    CanServe(CapSet(a.capabilities), CapSet(t.required))
  }

  function IdleOf(pool: Pool, run: RunId): (s: seq<Agent>)
    ensures forall a | a in s :: a in pool && a.run == run && a.status == Idle
    ensures forall a | a in pool && a.run == run && a.status == Idle :: a in s
  {
    if |pool| == 0 then []
    else if pool[0].run == run && pool[0].status == Idle then [pool[0]] + IdleOf(pool[1..], run)
    else IdleOf(pool[1..], run)
  }

  function Able(agents: seq<Agent>, t: Task): (s: seq<Agent>)
    ensures |s| <= |agents|
  {
    if |agents| == 0 then []
    else if Serves(agents[0], t) then [agents[0]] + Able(agents[1..], t)
    else Able(agents[1..], t)
  }

  lemma {:induction false} AbleHas(agents: seq<Agent>, t: Task, a: Agent)
    ensures a in Able(agents, t) <==> a in agents && Serves(a, t)
  {
    if |agents| > 0 { AbleHas(agents[1..], t, a); }
  }

  /** The first agent with the fewest capabilities. */
  function Narrowest(agents: seq<Agent>): (a: Agent)
    requires |agents| > 0
    ensures a in agents
  {
    if |agents| == 1 then agents[0]
    else
      var rest := Narrowest(agents[1..]);
      if |agents[0].capabilities| <= |rest.capabilities| then agents[0] else rest
  }

  lemma {:induction false} NarrowestIs(agents: seq<Agent>)
    requires |agents| > 0
    ensures forall b | b in agents :: |Narrowest(agents).capabilities| <= |b.capabilities|
  {
    if |agents| > 1 {
      NarrowestIs(agents[1..]);
      assert forall b | b in agents :: b == agents[0] || b in agents[1..];
    }
  }

  function Without(agents: seq<Agent>, id: AgentId): seq<Agent> {
    if |agents| == 0 then []
    else if agents[0].id == id then Without(agents[1..], id)
    else [agents[0]] + Without(agents[1..], id)
  }

  lemma {:induction false} WithoutHas(agents: seq<Agent>, id: AgentId, a: Agent)
    ensures a in Without(agents, id) <==> a in agents && a.id != id
  {
    if |agents| > 0 { WithoutHas(agents[1..], id, a); }
  }

  /** The agent a task takes. */
  function Chosen(available: seq<Agent>, t: Task): (a: Agent)
    requires |Able(available, t)| > 0
  {
    Narrowest(Able(available, t))
  }

  lemma {:induction false} ChosenIs(available: seq<Agent>, t: Task)
    requires |Able(available, t)| > 0
    ensures Chosen(available, t) in available && Serves(Chosen(available, t), t)
    ensures forall b | b in available && Serves(b, t) :: |Chosen(available, t).capabilities| <= |b.capabilities|
  {
    AbleHas(available, t, Chosen(available, t));
    NarrowestIs(Able(available, t));
    forall b | b in available && Serves(b, t) ensures b in Able(available, t) { AbleHas(available, t, b); }
  }

  /** The selection loop from place i of the list on: it looks at the capacity only after it has taken
      a task. */
  function GreedyFrom(ordered: seq<Entry>, i: nat, available: seq<Agent>, capacity: nat): seq<Pair>
    requires i <= |ordered|
    decreases |ordered| - i
  {
    if i == |ordered| then []
    else if |Able(available, ordered[i].task)| == 0 then GreedyFrom(ordered, i + 1, available, capacity)
    else
      var p := Pair(ordered[i].id, Chosen(available, ordered[i].task).id);
      if capacity <= 1 then [p] else [p] + GreedyFrom(ordered, i + 1, Without(available, p.agent), capacity - 1)
  }

  function Greedy(ordered: seq<Entry>, available: seq<Agent>, capacity: nat): seq<Pair> {
    GreedyFrom(ordered, 0, available, capacity)
  }

  // ----- What the loop selects -----

  ghost predicate Matching(m: set<Pair>) {
    forall p, q | p in m && q in m && (p.task == q.task || p.agent == q.agent) :: p == q
  }

  /** Every pair joins a task of the list to an available agent that can serve it. */
  ghost predicate Edges(m: set<Pair>, ordered: seq<Entry>, available: seq<Agent>) {
    forall p | p in m :: exists x, a ::
      x in ordered && a in available && p == Pair(x.id, a.id) && Serves(a, x.task)
  }

  ghost predicate NoRepeats(ordered: seq<Entry>) {
    forall i, j | 0 <= i < j < |ordered| :: ordered[i].id != ordered[j].id
  }

  /** The pairs share no task and no agent. */
  ghost predicate Apart(w: seq<Pair>) {
    forall i, j | 0 <= i < j < |w| :: w[i].task != w[j].task && w[i].agent != w[j].agent
  }

  function PairSet(wave: seq<Pair>): set<Pair> {
    set p | p in wave
  }

  function TasksOf(m: set<Pair>): set<TaskId> {
    set p | p in m :: p.task
  }

  function AgentsOf(m: set<Pair>): set<AgentId> {
    set p | p in m :: p.agent
  }

  function Max(a: int, b: int): int {
    if a < b then b else a
  }

  lemma {:induction false} GreedySize(ordered: seq<Entry>, i: nat, available: seq<Agent>, capacity: nat)
    requires i <= |ordered|
    ensures |GreedyFrom(ordered, i, available, capacity)| <= Max(1, capacity)
    ensures |GreedyFrom(ordered, i, available, capacity)| <= |ordered| - i
    decreases |ordered| - i
  {
    if i < |ordered| {
      if |Able(available, ordered[i].task)| == 0 {
        GreedySize(ordered, i + 1, available, capacity);
      } else if capacity > 1 {
        GreedySize(ordered, i + 1, Without(available, Chosen(available, ordered[i].task).id), capacity - 1);
      }
    }
  }

  /** Agent b was still free when pair n was taken. */
  ghost predicate FreeBefore(w: seq<Pair>, n: nat, b: AgentId) {
    forall j | 0 <= j < n && j < |w| :: w[j].agent != b
  }

  lemma {:induction false} FreeTail(p: Pair, v: seq<Pair>, n: nat, b: AgentId)
    requires n > 0
    ensures FreeBefore([p] + v, n, b) ==> p.agent != b && FreeBefore(v, n - 1, b)
  {
    if FreeBefore([p] + v, n, b) {
      assert ([p] + v)[0] == p;
      forall j | 0 <= j < n - 1 && j < |v| ensures v[j].agent != b { assert v[j] == ([p] + v)[j + 1]; }
    }
  }

  /** Where a selected pair comes from: a task and an agent that can serve it, with the fewest
      capabilities among the agents still free that can (b stands for any of them). */
  lemma {:induction false} GreedyOrigin(ordered: seq<Entry>, i: nat, available: seq<Agent>, capacity: nat, n: nat, b: Agent)
    returns (k: nat, a: Agent)
    requires i <= |ordered| && n < |GreedyFrom(ordered, i, available, capacity)|
    ensures i <= k < |ordered| && a in available && Serves(a, ordered[k].task)
    ensures GreedyFrom(ordered, i, available, capacity)[n] == Pair(ordered[k].id, a.id)
    ensures b in available && Serves(b, ordered[k].task) && FreeBefore(GreedyFrom(ordered, i, available, capacity), n, b.id)
            ==> |a.capabilities| <= |b.capabilities|
    decreases |ordered| - i
  {
    var t := ordered[i].task;
    if |Able(available, t)| == 0 {
      k, a := GreedyOrigin(ordered, i + 1, available, capacity, n, b);
    } else {
      ChosenIs(available, t);
      if n == 0 {
        k, a := i, Chosen(available, t);
      } else {
        var p := Pair(ordered[i].id, Chosen(available, t).id);
        var left := Without(available, p.agent);
        k, a := GreedyOrigin(ordered, i + 1, left, capacity - 1, n - 1, b);
        WithoutHas(available, p.agent, a);
        WithoutHas(available, p.agent, b);
        FreeTail(p, GreedyFrom(ordered, i + 1, left, capacity - 1), n, b.id);
      }
    }
  }

  lemma {:induction false} GreedyEdges(ordered: seq<Entry>, available: seq<Agent>, capacity: nat)
    ensures Edges(PairSet(Greedy(ordered, available, capacity)), ordered, available)
  {
    var w := Greedy(ordered, available, capacity);
    forall p | p in PairSet(w)
      ensures exists x, a :: x in ordered && a in available && p == Pair(x.id, a.id) && Serves(a, x.task)
    {
      var n: nat :| n < |w| && w[n] == p;
      var k, a := GreedyOrigin(ordered, 0, available, capacity, n, Agent("", "", [], 0, Idle, None, 0));
      assert ordered[k] in ordered;
    }
  }

  /** The selected pairs share no task and no agent. */
  lemma {:induction false} GreedyMatches(ordered: seq<Entry>, i: nat, available: seq<Agent>, capacity: nat)
    requires i <= |ordered| && NoRepeats(ordered)
    ensures Apart(GreedyFrom(ordered, i, available, capacity))
    decreases |ordered| - i
  {
    if i < |ordered| {
      if |Able(available, ordered[i].task)| == 0 {
        GreedyMatches(ordered, i + 1, available, capacity);
      } else if capacity > 1 {
        var chosen := Chosen(available, ordered[i].task);
        var left := Without(available, chosen.id);
        GreedyMatches(ordered, i + 1, left, capacity - 1);
        var v := GreedyFrom(ordered, i + 1, left, capacity - 1);
        forall n: nat | n < |v| ensures v[n].task != ordered[i].id && v[n].agent != chosen.id {
          var k, a := GreedyOrigin(ordered, i + 1, left, capacity - 1, n, chosen);
          WithoutHas(available, chosen.id, a);
        }
        ApartCons(Pair(ordered[i].id, chosen.id), v);
      }
    }
  }

  lemma {:induction false} ApartCons(p: Pair, v: seq<Pair>)
    requires Apart(v) && forall j | 0 <= j < |v| :: v[j].task != p.task && v[j].agent != p.agent
    ensures Apart([p] + v)
  {}

  /** Some selected pair has the task or the agent. */
  ghost predicate Meets(w: seq<Pair>, task: TaskId, agent: AgentId) {
    exists i :: 0 <= i < |w| && (w[i].task == task || w[i].agent == agent)
  }

  lemma {:induction false} MeetsLater(p: Pair, v: seq<Pair>, task: TaskId, agent: AgentId)
    requires Meets(v, task, agent)
    ensures Meets([p] + v, task, agent)
  {
    var i :| 0 <= i < |v| && (v[i].task == task || v[i].agent == agent);
    assert ([p] + v)[i + 1] == v[i];
  }

  /** While there is room, no servable task is left over beside an agent that could serve it. */
  lemma {:induction false} GreedyMaximal(ordered: seq<Entry>, i: nat, available: seq<Agent>, capacity: nat, k: nat, a: Agent)
    requires i <= k < |ordered| && |GreedyFrom(ordered, i, available, capacity)| < Max(1, capacity)
    requires a in available && Serves(a, ordered[k].task)
    ensures Meets(GreedyFrom(ordered, i, available, capacity), ordered[k].id, a.id)
    decreases |ordered| - i
  {
    var w, t := GreedyFrom(ordered, i, available, capacity), ordered[i].task;
    AbleHas(available, t, a);
    if |Able(available, t)| == 0 {
      GreedyMaximal(ordered, i + 1, available, capacity, k, a);
    } else {
      var chosen := Chosen(available, t);
      var p := Pair(ordered[i].id, chosen.id);
      if k != i && a.id != chosen.id {
        var left := Without(available, chosen.id);
        WithoutHas(available, chosen.id, a);
        GreedyMaximal(ordered, i + 1, left, capacity - 1, k, a);
        MeetsLater(p, GreedyFrom(ordered, i + 1, left, capacity - 1), ordered[k].id, a.id);
      } else {
        assert w[0] == p;
      }
    }
  }

  /** The wave takes tasks from the list in its order, place i of the list being the next. */
  ghost predicate InOrder(w: seq<Pair>, ordered: seq<Entry>, i: nat)
    requires i <= |ordered|
    decreases |ordered| - i
  {
    || |w| == 0
    || (i < |ordered| && ((w[0].task == ordered[i].id && InOrder(w[1..], ordered, i + 1)) || InOrder(w, ordered, i + 1)))
  }

  lemma {:induction false} GreedyInOrder(ordered: seq<Entry>, i: nat, available: seq<Agent>, capacity: nat)
    requires i <= |ordered|
    ensures InOrder(GreedyFrom(ordered, i, available, capacity), ordered, i)
    decreases |ordered| - i
  {
    if i < |ordered| {
      if |Able(available, ordered[i].task)| == 0 {
        GreedyInOrder(ordered, i + 1, available, capacity);
      } else {
        var left := Without(available, Chosen(available, ordered[i].task).id);
        var v := if capacity <= 1 then [] else GreedyFrom(ordered, i + 1, left, capacity - 1);
        if capacity > 1 { GreedyInOrder(ordered, i + 1, left, capacity - 1); }
        assert GreedyFrom(ordered, i, available, capacity)[1..] == v;
      }
    }
  }

  // ----- Counting -----

  lemma {:induction false} Counts(m: set<Pair>)
    requires Matching(m)
    ensures |TasksOf(m)| == |m| && |AgentsOf(m)| == |m|
    decreases m
  {
    if m != {} {
      var p :| p in m;
      var n := m - {p};
      assert m == n + {p};
      Counts(n);
      CountOne(n, p);
      OneMore(n, p);
      OneMore(TasksOf(n), p.task);
      OneMore(AgentsOf(n), p.agent);
    }
  }

  lemma {:induction false} OneMore<T>(s: set<T>, x: T)
    requires x !in s
    ensures |s + {x}| == |s| + 1
  {}

  lemma {:induction false} CountOne(n: set<Pair>, p: Pair)
    requires forall q | q in n :: q.task != p.task && q.agent != p.agent
    ensures TasksOf(n + {p}) == TasksOf(n) + {p.task} && p.task !in TasksOf(n)
    ensures AgentsOf(n + {p}) == AgentsOf(n) + {p.agent} && p.agent !in AgentsOf(n)
  {
    assert forall q | q in n + {p} :: q in n || q == p;
    assert p in n + {p};
  }

  lemma {:induction false} SubsetSize<T>(a: set<T>, b: set<T>)
    requires a <= b
    ensures |a| <= |b|
  {
    assert b == a + (b - a);
  }

  lemma {:induction false} PairSetSize(w: seq<Pair>)
    ensures |PairSet(w)| <= |w|
    decreases |w|
  {
    if |w| > 0 {
      PairSetSize(w[1..]);
      assert PairSet(w) == {w[0]} + PairSet(w[1..]);
    }
  }

  /** A matching each of whose pairs meets one of some tasks or agents is no larger than them together. */
  lemma {:induction false} CoverBounds(tasks: set<TaskId>, agents: set<AgentId>, m: set<Pair>)
    requires Matching(m) && forall p | p in m :: p.task in tasks || p.agent in agents
    ensures |m| <= |tasks| + |agents|
  {
    var byTask := set p | p in m && p.task in tasks;
    var byAgent := set p | p in m && p.task !in tasks;
    Counts(byTask);
    Counts(byAgent);
    SubsetSize(TasksOf(byTask), tasks);
    SubsetSize(AgentsOf(byAgent), agents);
    assert m == byTask + byAgent && byTask !! byAgent;
  }

  lemma {:induction false} SeqMatching(w: seq<Pair>)
    requires Apart(w)
    ensures Matching(PairSet(w))
  {}

  /** Unless the wave is full it has at least half as many pairs as any matching. */
  lemma {:induction false} GreedyIsHalfOptimal(ordered: seq<Entry>, available: seq<Agent>, capacity: nat, m: set<Pair>)
    requires NoRepeats(ordered) && |Greedy(ordered, available, capacity)| < Max(1, capacity)
    requires Matching(m) && Edges(m, ordered, available)
    ensures |m| <= 2 * |Greedy(ordered, available, capacity)|
  {
    var w := Greedy(ordered, available, capacity);
    GreedyMatches(ordered, 0, available, capacity);
    SeqMatching(w);
    forall p | p in m ensures p.task in TasksOf(PairSet(w)) || p.agent in AgentsOf(PairSet(w)) {
      var x, a :| x in ordered && a in available && p == Pair(x.id, a.id) && Serves(a, x.task);
      var k: nat :| k < |ordered| && ordered[k] == x;
      GreedyMaximal(ordered, 0, available, capacity, k, a);
      var i :| 0 <= i < |w| && (w[i].task == x.id || w[i].agent == a.id);
      assert w[i] in PairSet(w);
    }
    Counts(PairSet(w));
    CoverBounds(TasksOf(PairSet(w)), AgentsOf(PairSet(w)), m);
    PairSetSize(w);
  }

  // ----- The whole wave -----

  /** What the board's list of pending tasks promises: the tasks of the board that are due, none twice. */
  ghost predicate ListsPending(b: Board, now: int, pending: seq<TaskId>) {
    && (forall i | 0 <= i < |pending| ::
          pending[i] in b && b[pending[i]].status == Pending && !Deferred(b[pending[i]], now))
    && (forall i, j | 0 <= i < j < |pending| :: pending[i] != pending[j])
    && forall id | id in b && b[id].status == Pending && !Deferred(b[id], now) :: id in pending
  }

  predicate Startable(b: Board, id: TaskId, idle: seq<Agent>, inFlight: set<TaskId>) {
    id in b && DepsSatisfied(b, b[id]) && |Able(idle, b[id])| > 0 && id !in inFlight
  }

  /** The ready tasks among the first n that some idle agent can serve and that are not in flight. */
  function Entries(b: Board, pending: seq<TaskId>, n: nat, idle: seq<Agent>, inFlight: set<TaskId>): seq<Entry>
    requires n <= |pending|
  {
    if n == 0 then []
    else
      var id := pending[n - 1];
      var before := Entries(b, pending, n - 1, idle, inFlight);
      if Startable(b, id, idle, inFlight) then before + [Entry(id, b[id], |Able(idle, b[id])|)] else before
  }

  predicate Urgent(x: Entry, y: Entry) {
    || x.task.priority > y.task.priority
    || (x.task.priority == y.task.priority
        && (x.task.createdAt < y.task.createdAt
            || (x.task.createdAt == y.task.createdAt && StringLe(x.id, y.id))))
  }

  /** Fewest choices first. */
  predicate Constrained(x: Entry, y: Entry) {
    x.choices < y.choices || (x.choices == y.choices && Urgent(x, y))
  }

  function Where(s: seq<Entry>, exclusive: set<TaskId>, wanted: bool): seq<Entry> {
    if |s| == 0 then []
    else if (s[0].id in exclusive) == wanted then [s[0]] + Where(s[1..], exclusive, wanted)
    else Where(s[1..], exclusive, wanted)
  }

  /** Tasks that tolerate no siblings start alone and let nobody in while they run. */
  function PastBarrier(ordered: seq<Entry>, inFlight: set<TaskId>, exclusive: set<TaskId>): seq<Entry> {
    var alone := Where(ordered, exclusive, true);
    if inFlight != {} then
      if !(inFlight !! exclusive) then [] else Where(ordered, exclusive, false)
    else if |alone| > 0 then
      SortIs(Urgent, alone);
      Sort(Urgent, alone)[..1]
    else ordered
  }

  function Slots(ordered: seq<Entry>, load: nat, maxConcurrency: int, exclusive: set<TaskId>): (n: nat) {
    var capacity: nat := Max(0, maxConcurrency - load);
    if load == 0 && |Where(ordered, exclusive, true)| > 0 && capacity > 1 then 1 else capacity
  }

  function Ordered(b: Board, pending: seq<TaskId>, idle: seq<Agent>, inFlight: set<TaskId>): seq<Entry> {
    Sort(Constrained, Entries(b, pending, |pending|, idle, inFlight))
  }

  /** The wave: load counts the tasks in flight. */
  function Plan(b: Board, pending: seq<TaskId>, idle: seq<Agent>, inFlight: set<TaskId>, load: nat,
                maxConcurrency: int, exclusive: set<TaskId>): seq<Pair>
  {
    var ordered := Ordered(b, pending, idle, inFlight);
    Greedy(PastBarrier(ordered, inFlight, exclusive), idle, Slots(ordered, load, maxConcurrency, exclusive))
  }

  // ----- What is in the lists -----

  lemma {:induction false} EntriesHas(b: Board, pending: seq<TaskId>, n: nat, idle: seq<Agent>, inFlight: set<TaskId>, x: Entry)
    requires n <= |pending|
    ensures x in Entries(b, pending, n, idle, inFlight) <==>
            && (exists i :: 0 <= i < n && pending[i] == x.id) && Startable(b, x.id, idle, inFlight)
            && x == Entry(x.id, b[x.id], |Able(idle, b[x.id])|)
  {
    if n > 0 { EntriesHas(b, pending, n - 1, idle, inFlight, x); }
  }

  lemma {:induction false} EntriesApart(b: Board, pending: seq<TaskId>, n: nat, idle: seq<Agent>, inFlight: set<TaskId>)
    requires n <= |pending| && forall i, j | 0 <= i < j < |pending| :: pending[i] != pending[j]
    ensures NoRepeats(Entries(b, pending, n, idle, inFlight))
  {
    if n > 0 {
      var rest := Entries(b, pending, n - 1, idle, inFlight);
      EntriesApart(b, pending, n - 1, idle, inFlight);
      forall i | 0 <= i < |rest| ensures rest[i].id != pending[n - 1] {
        EntriesHas(b, pending, n - 1, idle, inFlight, rest[i]);
      }
    }
  }

  lemma {:induction false} WhereHas(s: seq<Entry>, exclusive: set<TaskId>, wanted: bool, x: Entry)
    ensures x in Where(s, exclusive, wanted) <==> x in s && (x.id in exclusive) == wanted
  {
    if |s| > 0 { WhereHas(s[1..], exclusive, wanted, x); }
  }

  lemma {:induction false} WhereApart(s: seq<Entry>, exclusive: set<TaskId>, wanted: bool)
    requires NoRepeats(s)
    ensures NoRepeats(Where(s, exclusive, wanted))
  {
    if |s| > 0 {
      WhereApart(s[1..], exclusive, wanted);
      var rest := Where(s[1..], exclusive, wanted);
      forall i | 0 <= i < |rest| ensures rest[i].id != s[0].id {
        WhereHas(s[1..], exclusive, wanted, rest[i]);
      }
    }
  }

  /** A rearrangement of a list without repeats has none. */
  lemma {:induction false} SameEntriesApart(s: seq<Entry>, t: seq<Entry>)
    requires NoRepeats(s) && multiset(s) == multiset(t)
    ensures NoRepeats(t)
    ensures forall x :: x in s <==> x in t
  {
    forall x ensures x in s <==> x in t { assert x in multiset(s) <==> x in multiset(t); }
    forall i, j | 0 <= i < j < |t| ensures t[i].id != t[j].id {
      if t[i].id == t[j].id {
        assert t[i] in s && t[j] in s;
        var a := t[..i];
        assert t == a + [t[i]] + t[i + 1..j] + [t[j]] + t[j + 1..];
        assert multiset(t)[t[i]] >= 2;
        OnceInApart(s, t[i]);
        assert false;
      }
    }
  }

  lemma {:induction false} OnceInApart(s: seq<Entry>, x: Entry)
    requires NoRepeats(s)
    ensures multiset(s)[x] <= 1
  {
    if |s| > 0 {
      OnceInApart(s[1..], x);
      assert s == [s[0]] + s[1..];
    }
  }

  lemma {:induction false} Orders()
    ensures TotalPreorder(Urgent) && TotalPreorder(Constrained)
  {
    forall x, y ensures Urgent(x, y) || Urgent(y, x) { StringLeTotal(x.id, y.id); }
    forall x, y, z | Urgent(x, y) && Urgent(y, z) ensures Urgent(x, z) {
      if StringLe(x.id, y.id) && StringLe(y.id, z.id) { StringLeTransitive(x.id, y.id, z.id); }
    }
  }

  /** The tasks the barrier lets through, told from the board. */
  ghost predicate Admitted(b: Board, pending: seq<TaskId>, idle: seq<Agent>, inFlight: set<TaskId>, exclusive: set<TaskId>, id: TaskId) {
    && id in pending && Startable(b, id, idle, inFlight)
    && if inFlight != {} then inFlight !! exclusive && id !in exclusive
       else forall e | e in pending && e in exclusive && Startable(b, e, idle, inFlight) ::
              id in exclusive && Urgent(Entry(id, b[id], 0), Entry(e, b[e], 0))
  }

  lemma {:induction false} BarrierHas(b: Board, pending: seq<TaskId>, idle: seq<Agent>, inFlight: set<TaskId>, exclusive: set<TaskId>, x: Entry)
    requires forall i, j | 0 <= i < j < |pending| :: pending[i] != pending[j]
    ensures x in PastBarrier(Ordered(b, pending, idle, inFlight), inFlight, exclusive) <==>
            && x.id in pending && Startable(b, x.id, idle, inFlight) && x == Entry(x.id, b[x.id], |Able(idle, b[x.id])|)
            && Admitted(b, pending, idle, inFlight, exclusive, x.id)
  {
    var ordered := Ordered(b, pending, idle, inFlight);
    OrderedHas(b, pending, idle, inFlight, x);
    WhereHas(ordered, exclusive, false, x);
    WhereHas(ordered, exclusive, true, x);
    if inFlight == {} { AloneHas(b, pending, idle, exclusive, x); }
  }

  lemma {:induction false} OrderedHas(b: Board, pending: seq<TaskId>, idle: seq<Agent>, inFlight: set<TaskId>, x: Entry)
    requires forall i, j | 0 <= i < j < |pending| :: pending[i] != pending[j]
    ensures NoRepeats(Ordered(b, pending, idle, inFlight))
    ensures x in Ordered(b, pending, idle, inFlight) <==>
            x.id in pending && Startable(b, x.id, idle, inFlight) && x == Entry(x.id, b[x.id], |Able(idle, b[x.id])|)
  {
    var entries := Entries(b, pending, |pending|, idle, inFlight);
    EntriesApart(b, pending, |pending|, idle, inFlight);
    SortIs(Constrained, entries);
    SameEntriesApart(entries, Ordered(b, pending, idle, inFlight));
    EntriesHas(b, pending, |pending|, idle, inFlight, x);
  }

  /** With nothing in flight the barrier lets the most urgent of its tasks through, if there is one. */
  lemma {:induction false} AloneIs(ordered: seq<Entry>, exclusive: set<TaskId>, x: Entry)
    requires NoRepeats(ordered)
    ensures x in PastBarrier(ordered, {}, exclusive) <==>
            x in ordered && forall e | e in ordered && e.id in exclusive :: x.id in exclusive && Urgent(x, e)
  {
    var alone := Where(ordered, exclusive, true);
    Orders();
    SortIs(Urgent, alone);
    WhereHas(ordered, exclusive, true, x);
    forall e | e in ordered && e.id in exclusive ensures e in alone { WhereHas(ordered, exclusive, true, e); }
    if |alone| > 0 {
      FirstIsLeast(alone, Sort(Urgent, alone));
      var f := Sort(Urgent, alone)[0];
      WhereHas(ordered, exclusive, true, f);
      UrgentAgain(x, f);
      assert x in PastBarrier(ordered, {}, exclusive) <==> x == f;
      forall e | e in ordered && e.id in exclusive ensures Urgent(f, e) { assert e in alone; }
    }
  }

  lemma {:induction false} AloneHas(b: Board, pending: seq<TaskId>, idle: seq<Agent>, exclusive: set<TaskId>, x: Entry)
    requires forall i, j | 0 <= i < j < |pending| :: pending[i] != pending[j]
    ensures x in PastBarrier(Ordered(b, pending, idle, {}), {}, exclusive) <==>
            x in Ordered(b, pending, idle, {}) && Admitted(b, pending, idle, {}, exclusive, x.id)
  {
    var ordered := Ordered(b, pending, idle, {});
    OrderedHas(b, pending, idle, {}, x);
    AloneIs(ordered, exclusive, x);
    forall e: Entry ensures e in ordered <==>
      e.id in pending && Startable(b, e.id, idle, {}) && e == Entry(e.id, b[e.id], |Able(idle, b[e.id])|)
    {
      OrderedHas(b, pending, idle, {}, e);
    }
    forall e | e in pending && e in exclusive && Startable(b, e, idle, {})
      ensures Entry(e, b[e], |Able(idle, b[e])|) in ordered
    {}
    if x in ordered && Admitted(b, pending, idle, {}, exclusive, x.id) {
      forall e | e in ordered && e.id in exclusive ensures x.id in exclusive && Urgent(x, e) {
        assert Urgent(Entry(x.id, b[x.id], 0), Entry(e.id, b[e.id], 0));
      }
    }
  }

  lemma {:induction false} FirstIsLeast(s: seq<Entry>, sorted: seq<Entry>)
    requires multiset(s) == multiset(sorted) && Sorted(Urgent, sorted) && |s| > 0
    ensures |sorted| > 0 && sorted[0] in s && forall y | y in s :: Urgent(sorted[0], y)
  {
    assert |multiset(s)| == |s|;
    assert sorted[0] in multiset(s);
    StringLeTotal(sorted[0].id, sorted[0].id);
    forall y | y in s ensures Urgent(sorted[0], y) { assert y in multiset(sorted); }
  }

  lemma {:induction false} UrgentAgain(x: Entry, y: Entry)
    ensures Urgent(x, y) && Urgent(y, x) ==> x.id == y.id
  {
    StringLeTotal(x.id, y.id);
  }

  lemma {:induction false} BarrierApart(b: Board, pending: seq<TaskId>, idle: seq<Agent>, inFlight: set<TaskId>, exclusive: set<TaskId>)
    requires forall i, j | 0 <= i < j < |pending| :: pending[i] != pending[j]
    ensures NoRepeats(PastBarrier(Ordered(b, pending, idle, inFlight), inFlight, exclusive))
  {
    var ordered := Ordered(b, pending, idle, inFlight);
    EntriesApart(b, pending, |pending|, idle, inFlight);
    SortIs(Constrained, Entries(b, pending, |pending|, idle, inFlight));
    SameEntriesApart(Entries(b, pending, |pending|, idle, inFlight), ordered);
    WhereApart(ordered, exclusive, false);
  }

  // ----- Main results -----

  /** What a pair of a wave stands for: a claim the board will allow, by an idle agent of the run that
      can serve the task, past the barrier. */
  ghost predicate GoodPair(b: Board, pending: seq<TaskId>, pool: Pool, run: RunId, inFlight: set<TaskId>, exclusive: set<TaskId>, p: Pair) {
    && p.task in pending && p.task !in inFlight && Allowed(b, p.task, Claim(p.agent))
    && Admitted(b, pending, IdleOf(pool, run), inFlight, exclusive, p.task)
    && var k := IndexOf(pool, p.agent);
       k < |pool| && pool[k].run == run && pool[k].status == Idle && Serves(pool[k], b[p.task])
  }

  /** Every wave is a matching of ready tasks with idle agents, no larger than the free slots or one;
      a task that tolerates no siblings starts alone, and nothing starts beside one. */
  lemma {:induction false} WaveIsMatching(b: Board, now: int, pending: seq<TaskId>, pool: Pool, run: RunId, inFlight: set<TaskId>,
                                          load: nat, maxConcurrency: int, exclusive: set<TaskId>)
    requires ListsPending(b, now, pending) && DistinctIds(pool) && (load == 0 <==> inFlight == {})
    ensures var wave := Plan(b, pending, IdleOf(pool, run), inFlight, load, maxConcurrency, exclusive);
            && Apart(wave) && |wave| <= Max(1, maxConcurrency - load)
            && (forall p | p in wave :: GoodPair(b, pending, pool, run, inFlight, exclusive, p))
            && (forall p | p in wave && p.task in exclusive :: inFlight == {} && |wave| == 1)
            && (!(inFlight !! exclusive) ==> wave == [])
  {
    var idle := IdleOf(pool, run);
    var wave := Plan(b, pending, idle, inFlight, load, maxConcurrency, exclusive);
    var ordered := Ordered(b, pending, idle, inFlight);
    var passed, slots := PastBarrier(ordered, inFlight, exclusive), Slots(ordered, load, maxConcurrency, exclusive);
    BarrierApart(b, pending, idle, inFlight, exclusive);
    GreedyMatches(passed, 0, idle, slots);
    GreedySize(passed, 0, idle, slots);
    forall p | p in wave
      ensures GoodPair(b, pending, pool, run, inFlight, exclusive, p)
      ensures p.task in exclusive ==> inFlight == {} && |wave| == 1
    {
      PairIsGood(b, now, pending, pool, run, inFlight, load, maxConcurrency, exclusive, p);
      if p.task in exclusive {
        StartsAlone(b, pending, idle, exclusive, p.task);
      }
    }
  }

  lemma {:induction false} StartsAlone(b: Board, pending: seq<TaskId>, idle: seq<Agent>, exclusive: set<TaskId>, id: TaskId)
    requires id in pending && id in exclusive && Startable(b, id, idle, {})
    requires forall i, j | 0 <= i < j < |pending| :: pending[i] != pending[j]
    ensures |PastBarrier(Ordered(b, pending, idle, {}), {}, exclusive)| == 1
  {
    var entries, ordered := Entries(b, pending, |pending|, idle, {}), Ordered(b, pending, idle, {});
    var x := Entry(id, b[id], |Able(idle, b[id])|);
    EntriesApart(b, pending, |pending|, idle, {});
    SortIs(Constrained, entries);
    SameEntriesApart(entries, ordered);
    EntriesHas(b, pending, |pending|, idle, {}, x);
    WhereHas(ordered, exclusive, true, x);
    SortIs(Urgent, Where(ordered, exclusive, true));
  }

  lemma {:induction false} PairIsGood(b: Board, now: int, pending: seq<TaskId>, pool: Pool, run: RunId, inFlight: set<TaskId>,
                                      load: nat, maxConcurrency: int, exclusive: set<TaskId>, p: Pair)
    requires ListsPending(b, now, pending) && DistinctIds(pool)
    requires p in Plan(b, pending, IdleOf(pool, run), inFlight, load, maxConcurrency, exclusive)
    ensures GoodPair(b, pending, pool, run, inFlight, exclusive, p)
    ensures p.task in exclusive ==> inFlight == {}
  {
    var idle := IdleOf(pool, run);
    var ordered := Ordered(b, pending, idle, inFlight);
    var passed, slots := PastBarrier(ordered, inFlight, exclusive), Slots(ordered, load, maxConcurrency, exclusive);
    GreedyEdges(passed, idle, slots);
    assert p in PairSet(Greedy(passed, idle, slots));
    var x, a :| x in passed && a in idle && p == Pair(x.id, a.id) && Serves(a, x.task);
    BarrierHas(b, pending, idle, inFlight, exclusive, x);
    var k: nat :| k < |pool| && pool[k] == a;
    IndexOfIs(pool, k);
  }

  /** A wave with room left has at least half as many pairs as any matching between the tasks the
      barrier lets through and the idle agents. */
  lemma {:induction false} WaveIsHalfOptimal(b: Board, now: int, pending: seq<TaskId>, pool: Pool, run: RunId, inFlight: set<TaskId>,
                                             load: nat, maxConcurrency: int, exclusive: set<TaskId>, m: set<Pair>)
    requires ListsPending(b, now, pending) && (load == 0 <==> inFlight == {})
    requires Matching(m) && forall p | p in m ::
               && Admitted(b, pending, IdleOf(pool, run), inFlight, exclusive, p.task)
               && exists a :: a in pool && a.id == p.agent && a.run == run && a.status == Idle && Serves(a, b[p.task])
    ensures var wave := Plan(b, pending, IdleOf(pool, run), inFlight, load, maxConcurrency, exclusive);
            |wave| < Max(1, maxConcurrency - load) ==> |m| <= 2 * |wave|
  {
    var idle := IdleOf(pool, run);
    var ordered := Ordered(b, pending, idle, inFlight);
    var passed, slots := PastBarrier(ordered, inFlight, exclusive), Slots(ordered, load, maxConcurrency, exclusive);
    var wave := Greedy(passed, idle, slots);
    BarrierApart(b, pending, idle, inFlight, exclusive);
    forall p | p in m ensures exists x, a :: x in passed && a in idle && p == Pair(x.id, a.id) && Serves(a, x.task) {
      var a :| a in pool && a.id == p.agent && a.run == run && a.status == Idle && Serves(a, b[p.task]);
      var x := Entry(p.task, b[p.task], |Able(idle, b[p.task])|);
      BarrierHas(b, pending, idle, inFlight, exclusive, x);
      assert x in passed && a in idle;
    }
    if |wave| < Max(1, slots) {
      GreedyIsHalfOptimal(passed, idle, slots, m);
    } else if load == 0 && |Where(ordered, exclusive, true)| > 0 {
      SortIs(Urgent, Where(ordered, exclusive, true));
      AtMostOne(m, passed, idle);
    }
  }

  /** One task can be matched once. */
  lemma {:induction false} AtMostOne(m: set<Pair>, ordered: seq<Entry>, available: seq<Agent>)
    requires Matching(m) && Edges(m, ordered, available) && |ordered| <= 1
    ensures |m| <= 1
  {
    if p :| p in m {
      forall q | q in m ensures q == p {
        var x, a :| x in ordered && a in available && p == Pair(x.id, a.id) && Serves(a, x.task);
        var y, c :| y in ordered && c in available && q == Pair(y.id, c.id) && Serves(c, y.task);
      }
      assert m == {p};
    }
  }

  lemma {:induction false} WhereSorted(s: seq<Entry>, exclusive: set<TaskId>, wanted: bool)
    requires Sorted(Constrained, s)
    ensures Sorted(Constrained, Where(s, exclusive, wanted))
  {
    if |s| > 0 {
      WhereSorted(s[1..], exclusive, wanted);
      var rest := Where(s[1..], exclusive, wanted);
      forall i | 0 <= i < |rest| ensures Constrained(s[0], rest[i]) {
        WhereHas(s[1..], exclusive, wanted, rest[i]);
      }
    }
  }

  /** Tasks with the fewest choices come first, then by priority, age and id. */
  lemma {:induction false} MostConstrainedFirst(b: Board, pending: seq<TaskId>, idle: seq<Agent>, inFlight: set<TaskId>,
                                                load: nat, maxConcurrency: int, exclusive: set<TaskId>)
    ensures var passed := PastBarrier(Ordered(b, pending, idle, inFlight), inFlight, exclusive);
            && Sorted(Constrained, passed)
            && InOrder(Plan(b, pending, idle, inFlight, load, maxConcurrency, exclusive), passed, 0)
  {
    var ordered := Ordered(b, pending, idle, inFlight);
    Orders();
    SortIs(Constrained, Entries(b, pending, |pending|, idle, inFlight));
    WhereSorted(ordered, exclusive, false);
    GreedyInOrder(PastBarrier(ordered, inFlight, exclusive), 0, idle, Slots(ordered, load, maxConcurrency, exclusive));
  }

  /** With nothing in flight an empty wave means that no idle agent can serve any ready task. */
  lemma {:induction false} EmptyWaveMeansNoWorker(b: Board, now: int, pending: seq<TaskId>, idle: seq<Agent>, maxConcurrency: int,
                                                  exclusive: set<TaskId>, id: TaskId)
    requires ListsPending(b, now, pending) && id in pending && DepsSatisfied(b, b[id])
    requires Plan(b, pending, idle, {}, 0, maxConcurrency, exclusive) == []
    ensures Able(idle, b[id]) == []
  {
    if |Able(idle, b[id])| > 0 {
      var ordered := Ordered(b, pending, idle, {});
      var passed := PastBarrier(ordered, {}, exclusive);
      OrderedHas(b, pending, idle, {}, Entry(id, b[id], |Able(idle, b[id])|));
      SortIs(Urgent, Where(ordered, exclusive, true));
      assert |passed| > 0;
      BarrierHas(b, pending, idle, {}, exclusive, passed[0]);
    }
  }

  /** A selection takes a task exactly when some task of the list can be served. */
  lemma {:induction false} GreedyTakesOne(ordered: seq<Entry>, i: nat, available: seq<Agent>, capacity: nat)
    requires i <= |ordered|
    ensures |GreedyFrom(ordered, i, available, capacity)| > 0
       <==> exists k :: i <= k < |ordered| && |Able(available, ordered[k].task)| > 0
    decreases |ordered| - i
  {
    if i < |ordered| && |Able(available, ordered[i].task)| == 0 { GreedyTakesOne(ordered, i + 1, available, capacity); }
  }

  /** A wave is empty exactly when the barrier lets no startable task through, whatever the limit. */
  lemma {:induction false} WaveTakesOne(b: Board, now: int, pending: seq<TaskId>, pool: Pool, run: RunId, inFlight: set<TaskId>,
                                        load: nat, maxConcurrency: int, exclusive: set<TaskId>)
    requires ListsPending(b, now, pending)
    ensures |Plan(b, pending, IdleOf(pool, run), inFlight, load, maxConcurrency, exclusive)| > 0
       <==> exists id :: Admitted(b, pending, IdleOf(pool, run), inFlight, exclusive, id)
  {
    var idle := IdleOf(pool, run);
    var ordered := Ordered(b, pending, idle, inFlight);
    var passed, slots := PastBarrier(ordered, inFlight, exclusive), Slots(ordered, load, maxConcurrency, exclusive);
    GreedyTakesOne(passed, 0, idle, slots);
    if |Greedy(passed, idle, slots)| > 0 {
      var k :| 0 <= k < |passed| && |Able(idle, passed[k].task)| > 0;
      BarrierHas(b, pending, idle, inFlight, exclusive, passed[k]);
    }
    if id :| Admitted(b, pending, idle, inFlight, exclusive, id) {
      var x := Entry(id, b[id], |Able(idle, b[id])|);
      BarrierHas(b, pending, idle, inFlight, exclusive, x);
      var k :| 0 <= k < |passed| && passed[k] == x;
    }
  }

  /** The concurrency limit is broken exactly by a task past the barrier when no slot is free: then the wave
      takes one such task, whatever the limit. With a free slot the wave stays within it. */
  lemma {:induction false} LimitIsBroken(b: Board, now: int, pending: seq<TaskId>, pool: Pool, run: RunId, inFlight: set<TaskId>,
                                         load: nat, maxConcurrency: int, exclusive: set<TaskId>)
    requires ListsPending(b, now, pending) && DistinctIds(pool) && (load == 0 <==> inFlight == {})
    ensures var wave := Plan(b, pending, IdleOf(pool, run), inFlight, load, maxConcurrency, exclusive);
            && (load + |wave| > Max(load, maxConcurrency) <==>
                  load >= maxConcurrency && exists id :: Admitted(b, pending, IdleOf(pool, run), inFlight, exclusive, id))
            && (load >= maxConcurrency ==> |wave| <= 1)
  {
    WaveIsMatching(b, now, pending, pool, run, inFlight, load, maxConcurrency, exclusive);
    WaveTakesOne(b, now, pending, pool, run, inFlight, load, maxConcurrency, exclusive);
  }

  /** One task running at a limit of one, one ready task and one idle agent: a second task starts. */
  lemma {:induction false} OneTooMany(t: Task, u: Task, a: Agent)
    requires t.status == Pending && t.dependencies == [] && t.required == [] && t.nextAttempt == None && a.status == Idle
    requires u.status == Status.Running
    ensures |Plan(map["t" := t, "u" := u], ["t"], IdleOf([a], a.run), {"u"}, 1, 1, {})| == 1
  {
    var b, idle := map["t" := t, "u" := u], IdleOf([a], a.run);
    assert CapSet(t.required) == {};
    AbleHas(idle, t, a);
    assert a in [a];
    assert Startable(b, "t", idle, {"u"});
    assert Admitted(b, ["t"], idle, {"u"}, {}, "t");
    LimitIsBroken(b, 0, ["t"], [a], a.run, {"u"}, 1, 1, {});
  }

  // ----- The wave and its reservations -----

  /** What the coroutines of a wave ask the registry for. */
  function Assignments(b: Board, wave: seq<Pair>): seq<Assignment>
    requires forall i | 0 <= i < |wave| :: wave[i].task in b
  {
    seq(|wave|, i requires 0 <= i < |wave| => Assignment(wave[i].task, CapSet(b[wave[i].task].required), wave[i].agent))
  }

  /** When every agent a wave plans takes work and has its task's full requirement, the wave's
      reservations, in any order, give each task exactly its planned agent. */
  lemma {:induction false} WaveReserves(b: Board, now: int, pending: seq<TaskId>, pool: Pool, run: RunId, inFlight: set<TaskId>,
                                        load: nat, maxConcurrency: int, exclusive: set<TaskId>, order: seq<Assignment>, clock: int)
    requires ListsPending(b, now, pending) && DistinctIds(pool) && (load == 0 <==> inFlight == {})
    requires var wave := Plan(b, pending, IdleOf(pool, run), inFlight, load, maxConcurrency, exclusive);
             && (forall i | 0 <= i < |wave| :: wave[i].task in b)
             && (forall p, a | p in wave && a in pool && a.id == p.agent ::
                   a.id != "" && a.maxConcurrency >= 1 && CapSet(b[p.task].required) <= CapSet(a.capabilities))
             && multiset(order) == multiset(Assignments(b, wave))
    ensures ReserveWave(pool, run, order, clock) == Hints(order)
  {
    var wave := Plan(b, pending, IdleOf(pool, run), inFlight, load, maxConcurrency, exclusive);
    WaveIsMatching(b, now, pending, pool, run, inFlight, load, maxConcurrency, exclusive);
    var s := Assignments(b, wave);
    forall i | 0 <= i < |wave| ensures HintFits(pool, run, s[i]) {
      assert wave[i] in wave;
      assert GoodPair(b, pending, pool, run, inFlight, exclusive, wave[i]);
      assert pool[IndexOf(pool, wave[i].agent)] in pool;
    }
    AnyOrderGetsHints(pool, run, s, order, clock);
  }
}
