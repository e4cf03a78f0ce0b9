/**
 The mailbox: bounded first-in-first-out inboxes and a per-sender rate limit over a sliding minute.

 Policy hooks and the clock are inputs; the operations are told on values first, then as the object that
 updates its inboxes and rate lists in place.
 */
module Mailboxes {
  import opened Basics

  type Recipient = Option<AgentId>

  datatype Message = Message(id: string, sender: AgentId, to: Recipient)

  datatype Outcome = Delivered | Refused | Raised

  datatype State = State(
    inboxes: map<Recipient, seq<Message>>,
    rate: map<AgentId, seq<real>>,
    blocked: set<AgentId>)

  const LIMIT := 60
  const WINDOW := 60.0

  function Get<K, V>(m: map<K, seq<V>>, k: K): seq<V> {
    if k in m then m[k] else []
  }

  /** Drops the times that are more than a minute old, from the front. */
  function Prune(recent: seq<real>, now: real): (kept: seq<real>)
    ensures |kept| <= |recent|
  {
    if |recent| > 0 && now - recent[0] > WINDOW then Prune(recent[1..], now) else recent
  }

  lemma {:induction false} PruneIs(recent: seq<real>, now: real)
    ensures var n := |recent| - |Prune(recent, now)|;
            Prune(recent, now) == recent[n..] && forall i | 0 <= i < n :: now - recent[i] > WINDOW
    decreases |recent|
  {
    if |recent| > 0 && now - recent[0] > WINDOW {
      var n := |recent| - |Prune(recent, now)|;
      PruneIs(recent[1..], now);
      forall i | 0 <= i < n ensures now - recent[i] > WINDOW {
        if i > 0 { assert recent[i] == recent[1..][i - 1]; }
      }
    }
  }

  /** Makes room for one more message, dropping the oldest. */
  function Trim(inbox: seq<Message>, capacity: int): (kept: seq<Message>)
    ensures |kept| <= |inbox| && (kept == [] || |kept| < capacity)
  {
    if |inbox| == 0 || |inbox| < capacity then inbox else Trim(inbox[1..], capacity)
  }

  lemma {:induction false} TrimIs(inbox: seq<Message>, capacity: int)
    ensures Trim(inbox, capacity) == inbox[|inbox| - |Trim(inbox, capacity)|..]
    ensures capacity >= 1 ==> |Trim(inbox, capacity)| == if |inbox| < capacity then |inbox| else capacity - 1
    decreases |inbox|
  {
    if |inbox| > 0 && |inbox| >= capacity { TrimIs(inbox[1..], capacity); }
  }

  // ----- Operations -----

  /** What stays of an inbox when a message comes; only named inboxes are bounded. */
  function Kept(inbox: seq<Message>, to: Recipient, capacity: int): (kept: seq<Message>)
    ensures |kept| <= |inbox|
  {
    if to.None? then inbox else Trim(inbox, capacity)
  }

  predicate Overflows(to: Recipient, capacity: int) {
    to.Some? && capacity <= 0
  }

  /** The sender is let through to its rate limit. */
  predicate Heard(s: State, m: Message, allow: bool) {
    allow && m.sender !in s.blocked
  }

  predicate Admitted(s: State, m: Message, allow: bool, now: real) {
    Heard(s, m, allow) && |Prune(Get(s.rate, m.sender), now)| < LIMIT
  }

  /** The sender's list forgets what is more than a minute old and notes an admission. */
  function Rated(recent: seq<real>, now: real): seq<real> {
    var kept := Prune(recent, now);
    if |kept| < LIMIT then kept + [now] else kept
  }

  function RatesAfter(s: State, m: Message, allow: bool, now: real): map<AgentId, seq<real>> {
    if Heard(s, m, allow) then s.rate[m.sender := Rated(Get(s.rate, m.sender), now)] else s.rate
  }

  function InboxAfter(inbox: seq<Message>, capacity: int, m: Message): seq<Message> {
    var kept := Kept(inbox, m.to, capacity);
    if Overflows(m.to, capacity) then kept else kept + [m]
  }

  function InboxesAfter(s: State, capacity: int, m: Message, allow: bool, now: real): map<Recipient, seq<Message>> {
    if Admitted(s, m, allow, now) then s.inboxes[m.to := InboxAfter(Get(s.inboxes, m.to), capacity, m)] else s.inboxes
  }

  function Sent(s: State, capacity: int, m: Message, allow: bool, now: real): State {
    State(InboxesAfter(s, capacity, m, allow, now), RatesAfter(s, m, allow, now), s.blocked)
  }

  /** A named inbox that can hold nothing is emptied and the send raises. */
  function SendOutcome(s: State, capacity: int, m: Message, allow: bool, now: real): Outcome {
    if !Admitted(s, m, allow, now) then Refused else if Overflows(m.to, capacity) then Raised else Delivered
  }

  function Taken(s: State, agent: AgentId, most: int): (n: nat)
    ensures n <= |Get(s.inboxes, Some(agent))|
  {
    var inbox := Get(s.inboxes, Some(agent));
    if most <= 0 then 0 else if most < |inbox| then most else |inbox|
  }

  function Fetched(s: State, agent: AgentId, most: int): (State, seq<Message>) {
    var inbox, n := Get(s.inboxes, Some(agent)), Taken(s, agent, most);
    if n == 0 then (s, []) else (s.(inboxes := s.inboxes[Some(agent) := inbox[n..]]), inbox[..n])
  }

  // ----- Histories -----

  datatype Leaving = Received(message: Message) | Dropped(message: Message)

  /** A mailbox with what has happened: admission times by sender, deliveries and departures by recipient. */
  datatype World = World(
    state: State,
    clock: real,
    admissions: map<AgentId, seq<real>>,
    delivered: map<Recipient, seq<Message>>,
    left: map<Recipient, seq<Leaving>>)

  datatype Event =
    | Post(message: Message, allow: bool)
    | Fetch(agent: AgentId, most: int)
    | Block(agent: AgentId)
    | Unblock(agent: AgentId)

  datatype Tick = Tick(event: Event, now: real)

  function AllDropped(messages: seq<Message>): (r: seq<Leaving>)
    ensures |r| == |messages| && forall i | 0 <= i < |r| :: r[i] == Dropped(messages[i])
  {
    seq(|messages|, i requires 0 <= i < |messages| => Dropped(messages[i]))
  }

  function AllReceived(messages: seq<Message>): (r: seq<Leaving>)
    ensures |r| == |messages| && forall i | 0 <= i < |r| :: r[i] == Received(messages[i])
  {
    seq(|messages|, i requires 0 <= i < |messages| => Received(messages[i]))
  }

  function Messages(left: seq<Leaving>): (r: seq<Message>)
    ensures |r| == |left| && forall i | 0 <= i < |r| :: r[i] == left[i].message
  {
    seq(|left|, i requires 0 <= i < |left| => left[i].message)
  }

  /** The first messages of the inbox, that make room. */
  function Displaced(w: World, capacity: int, to: Recipient): seq<Message> {
    var inbox := Get(w.state.inboxes, to);
    inbox[..|inbox| - |Kept(inbox, to, capacity)|]
  }

  function Posted(w: World, capacity: int, m: Message, allow: bool, now: real): World {
    var next, outcome := Sent(w.state, capacity, m, allow, now), SendOutcome(w.state, capacity, m, allow, now);
    World(next, now,
          if outcome.Refused? then w.admissions else w.admissions[m.sender := Get(w.admissions, m.sender) + [now]],
          if outcome.Delivered? then w.delivered[m.to := Get(w.delivered, m.to) + [m]] else w.delivered,
          if outcome.Refused? then w.left
          else w.left[m.to := Get(w.left, m.to) + AllDropped(Displaced(w, capacity, m.to))])
  }

  function Step(w: World, capacity: int, t: Tick): World {
    match t.event
    case Post(m, allow) => Posted(w, capacity, m, allow, t.now)
    case Fetch(agent, most) =>
      var (next, taken) := Fetched(w.state, agent, most);
      w.(state := next, clock := t.now, left := w.left[Some(agent) := Get(w.left, Some(agent)) + AllReceived(taken)])
    case Block(agent) => w.(state := w.state.(blocked := w.state.blocked + {agent}), clock := t.now)
    case Unblock(agent) => w.(state := w.state.(blocked := w.state.blocked - {agent}), clock := t.now)
  }

  /** The mailbox after the first n ticks. */
  function Run(capacity: int, ticks: seq<Tick>, n: nat): World
    requires n <= |ticks|
  {
    if n == 0 then World(State(map[], map[], {}), 0.0, map[], map[], map[])
    else Step(Run(capacity, ticks, n - 1), capacity, ticks[n - 1])
  }

  /** A clock that starts at zero or later and never goes back. */
  ghost predicate Clocked(ticks: seq<Tick>) {
    && (forall i | 0 <= i < |ticks| :: 0.0 <= ticks[i].now)
    && forall i, j | 0 <= i < j < |ticks| :: ticks[i].now <= ticks[j].now
  }

  // ----- The rate limit -----

  /** The recent times are the end of the log, and what was forgotten is more than a minute old. */
  ghost predicate Window(log: seq<real>, recent: seq<real>, clock: real) {
    && |recent| <= LIMIT && |recent| <= |log| && recent == log[|log| - |recent|..]
    && (forall i | 0 <= i < |log| - |recent| :: clock - log[i] > WINDOW)
    && Spread(log)
  }

  /** Any sixty admissions later more than a minute has passed. */
  ghost predicate Spread(log: seq<real>) {
    forall i, j | 0 <= i && i + LIMIT <= j < |log| :: log[j] - log[i] > WINDOW
  }

  lemma {:induction false} WindowPrunes(log: seq<real>, recent: seq<real>, clock: real, now: real)
    requires Window(log, recent, clock) && clock <= now
    ensures Window(log, Prune(recent, now), now)
  {
    PruneIs(recent, now);
    var kept := Prune(recent, now);
    var k, l := |log| - |recent|, |log| - |kept|;
    assert kept == log[l..];
    forall i | 0 <= i < l ensures now - log[i] > WINDOW {
      if i >= k { assert log[i] == recent[i - k]; }
    }
  }

  lemma {:induction false} WindowAdmits(log: seq<real>, recent: seq<real>, now: real)
    requires Window(log, recent, now) && |recent| < LIMIT
    ensures Window(log + [now], recent + [now], now)
  {
    var more := log + [now];
    forall i, j | 0 <= i && i + LIMIT <= j < |more| ensures more[j] - more[i] > WINDOW {
      if j == |log| { assert i < |log| - |recent|; }
    }
    assert more[|more| - |recent| - 1..] == recent + [now];
  }

  ghost predicate RatesOk(w: World) {
    forall a :: Window(Get(w.admissions, a), Get(w.state.rate, a), w.clock)
  }

  lemma {:induction false} WindowStays(log: seq<real>, recent: seq<real>, clock: real, now: real)
    requires Window(log, recent, clock) && clock <= now
    ensures Window(log, recent, now)
  {}

  lemma {:induction false} WindowSends(log: seq<real>, recent: seq<real>, clock: real, now: real)
    requires Window(log, recent, clock) && clock <= now
    ensures Window(Logged(log, recent, now), Rated(recent, now), now)
  {
    WindowPrunes(log, recent, clock, now);
    if |Prune(recent, now)| < LIMIT { WindowAdmits(log, Prune(recent, now), now); }
  }

  function Logged(log: seq<real>, recent: seq<real>, now: real): seq<real> {
    if |Prune(recent, now)| < LIMIT then log + [now] else log
  }

  /** A step leaves a sender's lists alone or rates one of its sends. */
  lemma {:induction false} StepRates(w: World, capacity: int, t: Tick, a: AgentId)
    ensures var next := Step(w, capacity, t);
            var log, recent := Get(w.admissions, a), Get(w.state.rate, a);
            || (Get(next.admissions, a) == log && Get(next.state.rate, a) == recent)
            || (Get(next.admissions, a) == Logged(log, recent, t.now) && Get(next.state.rate, a) == Rated(recent, t.now))
  {}

  lemma {:induction false} SenderStep(w: World, capacity: int, t: Tick, a: AgentId)
    requires Window(Get(w.admissions, a), Get(w.state.rate, a), w.clock) && w.clock <= t.now
    ensures Window(Get(Step(w, capacity, t).admissions, a), Get(Step(w, capacity, t).state.rate, a), t.now)
  {
    var log, recent := Get(w.admissions, a), Get(w.state.rate, a);
    WindowStays(log, recent, w.clock, t.now);
    WindowSends(log, recent, w.clock, t.now);
    StepRates(w, capacity, t, a);
  }

  lemma {:induction false} StepKeepsRates(w: World, capacity: int, t: Tick)
    requires RatesOk(w) && w.clock <= t.now
    ensures RatesOk(Step(w, capacity, t))
  {
    var next := Step(w, capacity, t);
    assert next.clock == t.now;
    forall a ensures Window(Get(next.admissions, a), Get(next.state.rate, a), t.now) {
      SenderStep(w, capacity, t, a);
    }
  }

  lemma {:induction false} RunKeepsRates(capacity: int, ticks: seq<Tick>, n: nat)
    requires n <= |ticks| && Clocked(ticks)
    ensures RatesOk(Run(capacity, ticks, n))
    ensures Run(capacity, ticks, n).clock == if n == 0 then 0.0 else ticks[n - 1].now
  {
    if n > 0 {
      RunKeepsRates(capacity, ticks, n - 1);
      StepKeepsRates(Run(capacity, ticks, n - 1), capacity, ticks[n - 1]);
    } else {
      forall a ensures Window(Get(Run(capacity, ticks, 0).admissions, a), Get(Run(capacity, ticks, 0).state.rate, a), 0.0) {
        assert Window([], [], 0.0);
      }
    }
  }

  function InWindow(log: seq<real>, from: real): set<nat> {
    set i: nat | i < |log| && from <= log[i] <= from + WINDOW
  }

  lemma {:induction false} SpanSize(s: set<nat>, low: nat, n: nat)
    requires forall i | i in s :: low <= i < low + n
    ensures |s| <= n
  {
    if n > 0 {
      SpanSize(s - {low + n - 1}, low, n - 1);
    } else {
      forall i: nat ensures i !in s {}
      assert s == {};
    }
  }

  lemma {:induction false} Least(s: set<nat>) returns (low: nat)
    requires s != {}
    ensures low in s && forall i | i in s :: low <= i
    decreases s
  {
    low :| low in s;
    if s != {low} {
      assert s == (s - {low}) + {low};
      var other := Least(s - {low});
      if other < low { low := other; }
    }
  }

  lemma {:induction false} WindowHolds(log: seq<real>, from: real)
    requires Spread(log)
    ensures |InWindow(log, from)| <= LIMIT
  {
    var s := InWindow(log, from);
    if s != {} {
      var low := Least(s);
      SpanSize(s, low, LIMIT);
    }
  }

  /** Over every run with a clock that does not go back, no sender has more than sixty sends admitted in
      any closed minute. */
  lemma {:induction false} RateLimitHolds(capacity: int, ticks: seq<Tick>, sender: AgentId, from: real)
    requires Clocked(ticks)
    ensures |InWindow(Get(Run(capacity, ticks, |ticks|).admissions, sender), from)| <= LIMIT
  {
    RunKeepsRates(capacity, ticks, |ticks|);
    WindowHolds(Get(Run(capacity, ticks, |ticks|).admissions, sender), from);
  }

  // ----- The inboxes -----

  /** What was delivered is what has left, in order, followed by what waits. */
  ghost predicate Conserved(w: World, to: Recipient) {
    Get(w.delivered, to) == Messages(Get(w.left, to)) + Get(w.state.inboxes, to)
  }

  ghost predicate InboxesOk(w: World, capacity: int) {
    && (forall to :: Conserved(w, to))
    && forall to :: Bound(to, capacity, |Get(w.state.inboxes, to)|)
  }

  lemma {:induction false} Departs(delivered: seq<Message>, left: seq<Leaving>, inbox: seq<Message>, n: nat, gone: seq<Leaving>)
    requires delivered == Messages(left) + inbox && n <= |inbox| && Messages(gone) == inbox[..n]
    ensures delivered == Messages(left + gone) + inbox[n..]
  {
    assert Messages(left + gone) == Messages(left) + inbox[..n];
    assert inbox == inbox[..n] + inbox[n..];
  }

  /** The messages that make room leave first; the new one joins the end, if the inbox can hold any. */
  lemma {:induction false} Arrives(delivered: seq<Message>, left: seq<Leaving>, inbox: seq<Message>, capacity: int, m: Message)
    requires delivered == Messages(left) + inbox
    ensures var gone := inbox[..|inbox| - |Kept(inbox, m.to, capacity)|];
            (if Overflows(m.to, capacity) then delivered else delivered + [m]) ==
              Messages(left + AllDropped(gone)) + InboxAfter(inbox, capacity, m)
  {
    var kept := Kept(inbox, m.to, capacity);
    var n := |inbox| - |kept|;
    TrimIs(inbox, capacity);
    assert inbox[0..] == inbox;
    assert kept == inbox[n..];
    assert Messages(AllDropped(inbox[..n])) == inbox[..n];
    Departs(delivered, left, inbox, n, AllDropped(inbox[..n]));
    var more := Messages(left + AllDropped(inbox[..n]));
    assert more + (kept + [m]) == (more + kept) + [m];
  }

  predicate Bound(to: Recipient, capacity: int, size: nat) {
    to.Some? ==> size <= if capacity > 0 then capacity else 0
  }

  lemma {:induction false} StaysBounded(inbox: seq<Message>, capacity: int, m: Message)
    ensures Bound(m.to, capacity, |InboxAfter(inbox, capacity, m)|)
  {}

  lemma {:induction false} PostedKeeps(w: World, capacity: int, m: Message, allow: bool, now: real)
    requires InboxesOk(w, capacity)
    ensures InboxesOk(Posted(w, capacity, m, allow, now), capacity)
  {
    var next := Posted(w, capacity, m, allow, now);
    forall to ensures Conserved(next, to) && Bound(to, capacity, |Get(next.state.inboxes, to)|) {
      PostedOne(w, capacity, m, allow, now, to);
    }
  }

  /** The lists of a recipient after a post: untouched, or moved by an admitted message. */
  lemma {:induction false} PostLists(w: World, capacity: int, m: Message, allow: bool, now: real, to: Recipient)
    ensures var next := Posted(w, capacity, m, allow, now);
            if to != m.to || !Admitted(w.state, m, allow, now) then
              && Get(next.delivered, to) == Get(w.delivered, to) && Get(next.left, to) == Get(w.left, to)
              && Get(next.state.inboxes, to) == Get(w.state.inboxes, to)
            else
              && Get(next.delivered, to) == (if Overflows(to, capacity) then Get(w.delivered, to) else Get(w.delivered, to) + [m])
              && Get(next.left, to) == Get(w.left, to) + AllDropped(Displaced(w, capacity, to))
              && Get(next.state.inboxes, to) == InboxAfter(Get(w.state.inboxes, to), capacity, m)
  {}

  lemma {:induction false} PostedOne(w: World, capacity: int, m: Message, allow: bool, now: real, to: Recipient)
    requires Conserved(w, to) && Bound(to, capacity, |Get(w.state.inboxes, to)|)
    ensures Conserved(Posted(w, capacity, m, allow, now), to)
    ensures Bound(to, capacity, |Get(Posted(w, capacity, m, allow, now).state.inboxes, to)|)
  {
    if to == m.to && Admitted(w.state, m, allow, now) {
      PostedHere(w, capacity, m, allow, now);
    } else {
      PostLists(w, capacity, m, allow, now, to);
    }
  }

  lemma {:induction false} PostedHere(w: World, capacity: int, m: Message, allow: bool, now: real)
    requires Conserved(w, m.to) && Admitted(w.state, m, allow, now)
    ensures Conserved(Posted(w, capacity, m, allow, now), m.to)
    ensures Bound(m.to, capacity, |Get(Posted(w, capacity, m, allow, now).state.inboxes, m.to)|)
  {
    PostLists(w, capacity, m, allow, now, m.to);
    Arrives(Get(w.delivered, m.to), Get(w.left, m.to), Get(w.state.inboxes, m.to), capacity, m);
    StaysBounded(Get(w.state.inboxes, m.to), capacity, m);
  }

  lemma {:induction false} FetchedKeeps(w: World, capacity: int, t: Tick)
    requires InboxesOk(w, capacity) && t.event.Fetch?
    ensures InboxesOk(Step(w, capacity, t), capacity)
  {
    var next, agent := Step(w, capacity, t), t.event.agent;
    forall to ensures Conserved(next, to) && Bound(to, capacity, |Get(next.state.inboxes, to)|) {
      assert Conserved(w, to) && Bound(to, capacity, |Get(w.state.inboxes, to)|);
      if to == Some(agent) {
        FetchLists(Get(w.delivered, to), Get(w.left, to), Get(w.state.inboxes, to), Taken(w.state, agent, t.event.most));
      }
    }
  }

  lemma {:induction false} FetchLists(delivered: seq<Message>, left: seq<Leaving>, inbox: seq<Message>, n: nat)
    requires delivered == Messages(left) + inbox && n <= |inbox|
    ensures delivered == Messages(left + AllReceived(inbox[..n])) + inbox[n..]
    ensures n == 0 ==> left + AllReceived([]) == left && inbox[n..] == inbox
  {
    assert Messages(AllReceived(inbox[..n])) == inbox[..n];
    Departs(delivered, left, inbox, n, AllReceived(inbox[..n]));
  }

  /** Over every run, for every recipient: each delivery has been received or dropped once, in order, or
      still waits; the inbox is the end of the deliveries; a named agent's inbox keeps to the capacity. */
  lemma {:induction false} InboxesHold(capacity: int, ticks: seq<Tick>, n: nat)
    requires n <= |ticks|
    ensures InboxesOk(Run(capacity, ticks, n), capacity)
  {
    if n > 0 {
      InboxesHold(capacity, ticks, n - 1);
      var w, t := Run(capacity, ticks, n - 1), ticks[n - 1];
      match t.event
      case Post(m, allow) => PostedKeeps(w, capacity, m, allow, t.now);
      case Fetch(_, _) => FetchedKeeps(w, capacity, t);
      case _ => forall to ensures Conserved(Step(w, capacity, t), to) && Bound(to, capacity, |Get(Step(w, capacity, t).state.inboxes, to)|) { assert Conserved(w, to); }
    } else {
      var w := Run(capacity, ticks, 0);
      forall to ensures Conserved(w, to) { assert Messages([]) + [] == []; }
    }
  }

  // ----- The mailbox as an object -----

  class Mailbox {
    const capacity: int
    var inboxes: map<Recipient, seq<Message>>
    var rate: map<AgentId, seq<real>>
    var blocklist: set<AgentId>

    ghost function View(): State
      reads this
    {
      State(inboxes, rate, blocklist)
    }

    constructor (capacity: int)
      ensures this.capacity == capacity && View() == State(map[], map[], {})
    {
      this.capacity := capacity;
      inboxes, rate, blocklist := map[], map[], {};
    }

    method Block(agent: AgentId)
      modifies this`blocklist
      ensures blocklist == old(blocklist) + {agent}
    {
      blocklist := blocklist + {agent};
    }

    method Unblock(agent: AgentId)
      modifies this`blocklist
      ensures blocklist == old(blocklist) - {agent}
    {
      blocklist := blocklist - {agent};
    }

    method RateCheck(agent: AgentId, now: real) returns (ok: bool)
      modifies this`rate
      ensures rate == old(rate)[agent := Rated(Get(old(rate), agent), now)]
      ensures ok == (|Prune(Get(old(rate), agent), now)| < LIMIT)
    {
      var recent := if agent in rate then rate[agent] else [];
      while |recent| > 0 && now - recent[0] > WINDOW
        invariant Prune(recent, now) == Prune(Get(old(rate), agent), now)
        decreases |recent|
      {
        recent := recent[1..];
      }
      ok := |recent| < LIMIT;
      if ok { recent := recent + [now]; }
      rate := rate[agent := recent];
    }

    /** False stands for the error raised when an empty inbox cannot be made smaller. */
    method EnforceCapacity(to: Recipient) returns (ok: bool)
      modifies this`inboxes
      ensures ok == !Overflows(to, capacity)
      ensures inboxes == if to.None? then old(inboxes) else old(inboxes)[to := Kept(Get(old(inboxes), to), to, capacity)]
    {
      if to.None? { return true; }
      var inbox := if to in inboxes then inboxes[to] else [];
      while |inbox| >= capacity && |inbox| > 0
        invariant Trim(inbox, capacity) == Trim(Get(old(inboxes), to), capacity)
        decreases |inbox|
      {
        inbox := inbox[1..];
      }
      inboxes := inboxes[to := inbox];
      return |inbox| < capacity;
    }

    /** allow is the verdict of the policy hooks. */
    method Send(m: Message, allow: bool, now: real) returns (outcome: Outcome)
      modifies this`inboxes, this`rate
      ensures View() == Sent(old(View()), capacity, m, allow, now)
      ensures outcome == SendOutcome(old(View()), capacity, m, allow, now)
    {
      if !allow || m.sender in blocklist {
        return Refused;
      }
      var admitted := RateCheck(m.sender, now);
      if !admitted {
        return Refused;
      }
      var room := EnforceCapacity(m.to);
      if !room {
        return Raised;
      }
      inboxes := inboxes[m.to := (if m.to in inboxes then inboxes[m.to] else []) + [m]];
      return Delivered;
    }

    method Receive(agent: AgentId, most: int) returns (out: seq<Message>)
      modifies this`inboxes
      ensures (View(), out) == Fetched(old(View()), agent, most)
    {
      out := [];
      if Some(agent) !in inboxes { return; }
      var inbox := inboxes[Some(agent)];
      ghost var n := Taken(View(), agent, most);
      assert inbox[..0] == [] && inbox[0..] == inbox;
      while |inbox| > 0 && |out| < most
        invariant |out| <= n && out == old(inboxes)[Some(agent)][..|out|]
        invariant inbox == old(inboxes)[Some(agent)][|out|..]
        decreases |inbox|
      {
        out := out + [inbox[0]];
        inbox := inbox[1..];
      }
      if |out| > 0 { inboxes := inboxes[Some(agent) := inbox]; }
    }
  }
}
