/**
 The artifact store: files written under a root, versions that follow repairs, the task and run indexes,
 lineage and integrity.

 Path resolution and hashing are inputs; the store is told on values first, then as the object that
 updates its tables in place.
 */
module Artifacts {
  import opened Basics
  import opened Sorting

  type ArtifactId = string
  type Path = string
  type Hash = string
  newtype Byte = x: int | 0 <= x < 256
  type Bytes = seq<Byte>

  datatype ArtifactStatus = Published | Verified | Rejected | Superseded

  datatype Artifact = Artifact(
    id: ArtifactId,
    run: RunId,
    task: TaskId,
    path: string,
    hash: Hash,
    version: nat,
    status: ArtifactStatus,
    createdAt: int,
    predecessor: Option<ArtifactId>,
    parent: Option<ArtifactId>)

  /** The file system under the root: where a relative path leads, if it stays inside. */
  datatype Config = Config(root: bool, resolve: string -> Option<Path>, hash: Bytes -> Hash)

  datatype Store = Store(
    registry: map<ArtifactId, Artifact>,
    order: seq<ArtifactId>,
    byTask: map<TaskId, seq<ArtifactId>>,
    byRun: map<RunId, seq<ArtifactId>>,
    disk: map<Path, Bytes>)

  /** What a caller hands to a create. */
  datatype Draft = Draft(run: RunId, task: TaskId, path: string, content: Bytes, parent: Option<ArtifactId>)

  function Listed<K>(index: map<K, seq<ArtifactId>>, k: K): seq<ArtifactId> {
    if k in index then index[k] else []
  }

  /** An id that is there and not empty. */
  function Given(id: Option<ArtifactId>): Option<ArtifactId> {
    if id == Some("") then None else id
  }

  predicate Repairs(s: Store, d: Draft) {
    Given(d.parent).Some? && d.parent.value in s.registry
  }

  // ----- Operations -----

  function Built(c: Config, s: Store, d: Draft, id: ArtifactId, now: int): Artifact {
    var repairs := Repairs(s, d);
    Artifact(id, d.run, d.task, d.path, c.hash(d.content),
             if repairs then s.registry[d.parent.value].version + 1 else 1, Published, now,
             if repairs then d.parent else None, d.parent)
  }

  function Registered(s: Store, d: Draft, a: Artifact): map<ArtifactId, Artifact> {
    var before := if Repairs(s, d) then s.registry[d.parent.value := s.registry[d.parent.value].(status := Superseded)]
                  else s.registry;
    before[a.id := a]
  }

  /** A path that leaves the root is refused before anything is written. */
  function Create(c: Config, s: Store, d: Draft, id: ArtifactId, now: int): Option<Store> {
    var where := c.resolve(d.path);
    if where.None? then None
    else
      Some(Store(Registered(s, d, Built(c, s, d, id, now)),
                 s.order + [id],
                 s.byTask[d.task := Listed(s.byTask, d.task) + [id]],
                 s.byRun[d.run := Listed(s.byRun, d.run) + [id]],
                 if c.root then s.disk[where.value := d.content] else s.disk))
  }

  function Mark(s: Store, id: ArtifactId, status: ArtifactStatus): Store {
    if id in s.registry then s.(registry := s.registry[id := s.registry[id].(status := status)]) else s
  }

  function ReadBytes(c: Config, s: Store, id: ArtifactId): Option<Bytes> {
    if id !in s.registry || !c.root then None
    else
      var where := c.resolve(s.registry[id].path);
      if where.Some? && where.value in s.disk then Some(s.disk[where.value]) else None
  }

  predicate VerifyIntegrity(c: Config, s: Store, id: ArtifactId) {
    var content := ReadBytes(c, s, id);
    id in s.registry && content.Some? && c.hash(content.value) == s.registry[id].hash
  }

  // ----- What every run keeps -----

  /** Ids are never used twice, nor named as a parent before they exist. */
  ghost predicate Unseen(s: Store, id: ArtifactId) {
    && id != "" && id !in s.registry
    && forall x | x in s.registry :: s.registry[x].parent != Some(id)
  }

  /** A predecessor is registered and one version older; a parent that was not registered never will be. */
  ghost predicate Linked(registry: map<ArtifactId, Artifact>, a: Artifact) {
    if a.predecessor.Some? then
      && a.parent == a.predecessor && a.predecessor.value != ""
      && a.predecessor.value in registry && a.version == registry[a.predecessor.value].version + 1
    else
      a.version == 1 && (Given(a.parent).Some? ==> a.parent.value !in registry)
  }

  ghost predicate LinksOk(registry: map<ArtifactId, Artifact>) {
    forall x | x in registry :: registry[x].id == x && x != "" && registry[x].version >= 1 && Linked(registry, registry[x])
  }

  /** The list names every member exactly once and nothing else. */
  ghost predicate Lists(list: seq<ArtifactId>, members: set<ArtifactId>) {
    multiset(list) == multiset(members)
  }

  function OfTask(registry: map<ArtifactId, Artifact>, t: TaskId): set<ArtifactId> {
    set x | x in registry && registry[x].task == t
  }

  function OfRun(registry: map<ArtifactId, Artifact>, r: RunId): set<ArtifactId> {
    set x | x in registry && registry[x].run == r
  }

  ghost predicate IndexesOk(s: Store) {
    && Lists(s.order, s.registry.Keys)
    && (forall t :: Lists(Listed(s.byTask, t), OfTask(s.registry, t)))
    && forall r :: Lists(Listed(s.byRun, r), OfRun(s.registry, r))
  }

  /** Only statuses differ. */
  ghost predicate SameButStatus(was: map<ArtifactId, Artifact>, next: map<ArtifactId, Artifact>) {
    was.Keys == next.Keys && forall x | x in was :: next[x] == was[x].(status := next[x].status)
  }

  lemma {:induction false} StatusKeepsLinks(was: map<ArtifactId, Artifact>, next: map<ArtifactId, Artifact>)
    requires SameButStatus(was, next) && LinksOk(was)
    ensures LinksOk(next)
  {
    forall x | x in next ensures next[x].id == x && x != "" && next[x].version >= 1 && Linked(next, next[x]) {
      var a := was[x];
      assert next[x] == a.(status := next[x].status) && Linked(was, a);
      if a.predecessor.Some? {
        var p := a.predecessor.value;
        assert next[p] == was[p].(status := next[p].status);
      }
    }
  }

  lemma {:induction false} StatusKeepsIndexes(s: Store, next: Store)
    requires SameButStatus(s.registry, next.registry) && next == s.(registry := next.registry) && IndexesOk(s)
    ensures IndexesOk(next)
  {
    forall t ensures OfTask(next.registry, t) == OfTask(s.registry, t) {}
    forall r ensures OfRun(next.registry, r) == OfRun(s.registry, r) {}
  }

  /** A registry with one new artifact, whose parent may have changed its status. */
  ghost predicate Grown(was: map<ArtifactId, Artifact>, next: map<ArtifactId, Artifact>, a: Artifact) {
    && a.id !in was && a.id in next && next[a.id] == a
    && SameButStatus(was, next - {a.id})
  }

  lemma {:induction false} CreateGrows(c: Config, s: Store, d: Draft, id: ArtifactId, now: int)
    requires Unseen(s, id)
    ensures Grown(s.registry, Registered(s, d, Built(c, s, d, id, now)), Built(c, s, d, id, now))
  {}

  lemma {:induction false} CreateLinks(c: Config, s: Store, d: Draft, id: ArtifactId, now: int)
    requires LinksOk(s.registry) && Unseen(s, id) && d.parent != Some(id)
    ensures LinksOk(Registered(s, d, Built(c, s, d, id, now)))
  {
    var a := Built(c, s, d, id, now);
    var next := Registered(s, d, a);
    CreateGrows(c, s, d, id, now);
    StatusKeepsLinks(s.registry, next - {id});
    forall x | x in next ensures next[x].id == x && x != "" && next[x].version >= 1 && Linked(next, next[x]) {
      if x != id {
        assert Linked(next - {id}, (next - {id})[x]);
        assert s.registry[x].parent != Some(id) && next[x].parent == s.registry[x].parent;
      } else {
        assert Linked(next, a);
      }
    }
  }

  lemma {:induction false} ListsMore(list: seq<ArtifactId>, members: set<ArtifactId>, id: ArtifactId)
    requires Lists(list, members) && id !in members
    ensures Lists(list + [id], members + {id})
  {}

  lemma {:induction false} TaskIndexGrows(index: map<TaskId, seq<ArtifactId>>, was: map<ArtifactId, Artifact>, next: map<ArtifactId, Artifact>, a: Artifact)
    requires Grown(was, next, a) && forall t :: Lists(Listed(index, t), OfTask(was, t))
    ensures forall t :: Lists(Listed(index[a.task := Listed(index, a.task) + [a.id]], t), OfTask(next, t))
  {
    GrownSets(was, next, a);
    forall t ensures Lists(Listed(index[a.task := Listed(index, a.task) + [a.id]], t), OfTask(next, t)) {
      assert Lists(Listed(index, t), OfTask(was, t));
      if t == a.task { ListsMore(Listed(index, t), OfTask(was, t), a.id); }
    }
  }

  lemma {:induction false} RunIndexGrows(index: map<RunId, seq<ArtifactId>>, was: map<ArtifactId, Artifact>, next: map<ArtifactId, Artifact>, a: Artifact)
    requires Grown(was, next, a) && forall r :: Lists(Listed(index, r), OfRun(was, r))
    ensures forall r :: Lists(Listed(index[a.run := Listed(index, a.run) + [a.id]], r), OfRun(next, r))
  {
    GrownSets(was, next, a);
    forall r ensures Lists(Listed(index[a.run := Listed(index, a.run) + [a.id]], r), OfRun(next, r)) {
      assert Lists(Listed(index, r), OfRun(was, r));
      if r == a.run { ListsMore(Listed(index, r), OfRun(was, r), a.id); }
    }
  }

  lemma {:induction false} CreateIndexes(c: Config, s: Store, d: Draft, id: ArtifactId, now: int)
    requires IndexesOk(s) && Unseen(s, id) && Create(c, s, d, id, now).Some?
    ensures IndexesOk(Create(c, s, d, id, now).value)
  {
    var a := Built(c, s, d, id, now);
    var next := Registered(s, d, a);
    CreateGrows(c, s, d, id, now);
    GrownSets(s.registry, next, a);
    ListsMore(s.order, s.registry.Keys, id);
    TaskIndexGrows(s.byTask, s.registry, next, a);
    RunIndexGrows(s.byRun, s.registry, next, a);
  }

  lemma {:induction false} GrownSets(was: map<ArtifactId, Artifact>, next: map<ArtifactId, Artifact>, a: Artifact)
    requires Grown(was, next, a)
    ensures next.Keys == was.Keys + {a.id}
    ensures forall t :: OfTask(next, t) == if t == a.task then OfTask(was, t) + {a.id} else OfTask(was, t)
    ensures forall r :: OfRun(next, r) == if r == a.run then OfRun(was, r) + {a.id} else OfRun(was, r)
  {
    var rest := next - {a.id};
    assert rest.Keys == was.Keys;
    forall x | x in next ensures x == a.id || (x in was && next[x] == was[x].(status := next[x].status)) {
      if x != a.id { assert x in rest && rest[x] == next[x]; }
    }
    forall x | x in was ensures x in next && x != a.id { assert x in rest; }
  }

  // ----- Lineage -----

  /** The artifact a lineage walk looks at next. */
  function Previous(a: Artifact): Option<ArtifactId> {
    if Given(a.predecessor).Some? then a.predecessor else Given(a.parent)
  }

  /** The predecessors of an artifact from the first version on, then the artifact. */
  function Ancestors(registry: map<ArtifactId, Artifact>, id: ArtifactId): seq<Artifact>
    requires LinksOk(registry) && id in registry
    decreases registry[id].version
  {
    var a := registry[id];
    assert Linked(registry, a);
    if a.predecessor.None? then [a] else Ancestors(registry, a.predecessor.value) + [a]
  }

  /** A lineage starts at version one and every step adds one. */
  lemma {:induction false} AncestorVersions(registry: map<ArtifactId, Artifact>, id: ArtifactId)
    requires LinksOk(registry) && id in registry
    ensures var chain := Ancestors(registry, id);
            && |chain| == registry[id].version && chain[|chain| - 1] == registry[id]
            && (forall i | 0 <= i < |chain| :: chain[i].version == i + 1 && chain[i].id in registry && registry[chain[i].id] == chain[i])
            && (forall i | 0 < i < |chain| :: chain[i].predecessor == Some(chain[i - 1].id))
    decreases registry[id].version
  {
    var a := registry[id];
    assert Linked(registry, a);
    if a.predecessor.Some? { AncestorVersions(registry, a.predecessor.value); }
  }

  predicate Older(a: Artifact, b: Artifact) {
    a.version < b.version || (a.version == b.version && a.createdAt <= b.createdAt)
  }

  predicate Follows(a: Artifact, id: ArtifactId) {
    a.predecessor == Some(id) || a.parent == Some(id)
  }

  /** The artifacts among the first n registered that name this one as predecessor or parent. */
  function Followers(s: Store, n: nat, id: ArtifactId): seq<Artifact>
    requires n <= |s.order|
  {
    if n == 0 then []
    else
      var before, x := Followers(s, n - 1, id), s.order[n - 1];
      if x in s.registry && Follows(s.registry[x], id) then before + [s.registry[x]] else before
  }

  function Successors(s: Store, id: ArtifactId): seq<Artifact> {
    Sort(Older, Followers(s, |s.order|, id))
  }

  function Lineage(s: Store, id: ArtifactId): seq<Artifact>
    requires LinksOk(s.registry)
  {
    if id !in s.registry then [] else Ancestors(s.registry, id) + Successors(s, id)
  }

  lemma {:induction false} FollowersHas(s: Store, n: nat, id: ArtifactId, a: Artifact)
    requires n <= |s.order|
    ensures a in Followers(s, n, id) <==>
            exists i :: 0 <= i < n && s.order[i] in s.registry && s.registry[s.order[i]] == a && Follows(a, id)
  {
    if n > 0 { FollowersHas(s, n - 1, id, a); }
  }

  /** Every follower is a direct successor, one version newer. */
  lemma {:induction false} FollowersAreNext(s: Store, id: ArtifactId, a: Artifact)
    requires LinksOk(s.registry) && IndexesOk(s) && id in s.registry
    ensures a in Followers(s, |s.order|, id) <==> a.id in s.registry && s.registry[a.id] == a && a.predecessor == Some(id)
    ensures a in Followers(s, |s.order|, id) ==> a.version == s.registry[id].version + 1
  {
    FollowersHas(s, |s.order|, id, a);
    if a.id in s.registry {
      assert a.id in multiset(s.registry.Keys);
      assert a.id in multiset(s.order) && a.id in s.order;
      assert Linked(s.registry, s.registry[a.id]);
    }
    forall i | 0 <= i < |s.order| && s.order[i] in s.registry && s.registry[s.order[i]] == a
      ensures a.id == s.order[i] && Linked(s.registry, a)
    {}
  }

  lemma {:induction false} OlderOrders()
    ensures TotalPreorder(Older)
  {}

  lemma {:induction false} SuccessorsAre(s: Store, id: ArtifactId)
    requires LinksOk(s.registry) && IndexesOk(s) && id in s.registry
    ensures forall a :: a in Successors(s, id) <==> a.id in s.registry && s.registry[a.id] == a && a.predecessor == Some(id)
    ensures forall a | a in Successors(s, id) :: a.version == s.registry[id].version + 1
    ensures Sorted(Older, Successors(s, id))
  {
    var followers := Followers(s, |s.order|, id);
    OlderOrders();
    SortIs(Older, followers);
    forall a ensures a in Successors(s, id) <==> a in followers {
      assert a in multiset(Successors(s, id)) <==> a in multiset(followers);
    }
    forall a ensures a in followers <==> a.id in s.registry && s.registry[a.id] == a && a.predecessor == Some(id) {
      FollowersAreNext(s, id, a);
    }
    forall a | a in followers ensures a.version == s.registry[id].version + 1 { FollowersAreNext(s, id, a); }
  }

  /** A lineage holds the versions one, two, and so on up to the artifact, then exactly its direct
      successors, each one version newer, in order of creation. */
  lemma {:induction false} LineageIs(s: Store, id: ArtifactId)
    requires LinksOk(s.registry) && IndexesOk(s) && id in s.registry
    ensures var v, up, next := s.registry[id].version, Ancestors(s.registry, id), Successors(s, id);
            && Lineage(s, id) == up + next
            && |up| == v && up[v - 1] == s.registry[id]
            && (forall i | 0 <= i < v :: up[i].version == i + 1 && up[i].id in s.registry && s.registry[up[i].id] == up[i])
            && (forall i | 0 < i < v :: up[i].predecessor == Some(up[i - 1].id))
            && (forall i | 0 <= i < |next| :: next[i].version == v + 1 && next[i].predecessor == Some(id))
            && (forall i, j | 0 <= i < j < |next| :: next[i].createdAt <= next[j].createdAt)
            && (forall x | x in s.registry && s.registry[x].predecessor == Some(id) :: s.registry[x] in next)
  {
    AncestorVersions(s.registry, id);
    SuccessorsAre(s, id);
    var next := Successors(s, id);
    forall i | 0 <= i < |next| ensures next[i].version == s.registry[id].version + 1 && next[i].predecessor == Some(id) {
      assert next[i] in next;
    }
    forall i, j | 0 <= i < j < |next| ensures next[i].createdAt <= next[j].createdAt {
      assert next[i] in next && next[j] in next && Older(next[i], next[j]);
    }
  }

  // ----- Whole runs -----

  datatype Event =
    | Write(draft: Draft, id: ArtifactId, now: int)
    | Judge(id: ArtifactId, status: ArtifactStatus)

  /** New ids are fresh. */
  ghost predicate Enabled(s: Store, e: Event) {
    e.Write? ==> Unseen(s, e.id) && e.draft.parent != Some(e.id)
  }

  function Step(c: Config, s: Store, e: Event): Store {
    match e
    case Write(d, id, now) =>
      var next := Create(c, s, d, id, now);
      if next.None? then s else next.value
    case Judge(id, status) => Mark(s, id, status)
  }

  function Empty(): Store {
    Store(map[], [], map[], map[], map[])
  }

  /** The store after the first n events. */
  function Run(c: Config, events: seq<Event>, n: nat): Store
    requires n <= |events|
  {
    if n == 0 then Empty() else Step(c, Run(c, events, n - 1), events[n - 1])
  }

  ghost predicate EnabledAt(c: Config, events: seq<Event>, i: nat) {
    i < |events| && Enabled(Run(c, events, i), events[i])
  }

  ghost predicate Enabling(c: Config, events: seq<Event>) {
    forall i: nat | i < |events| :: EnabledAt(c, events, i)
  }

  lemma {:induction false} MarkKeeps(s: Store, id: ArtifactId, status: ArtifactStatus)
    requires LinksOk(s.registry) && IndexesOk(s)
    ensures LinksOk(Mark(s, id, status).registry) && IndexesOk(Mark(s, id, status))
  {
    var next := Mark(s, id, status);
    assert SameButStatus(s.registry, next.registry);
    StatusKeepsLinks(s.registry, next.registry);
    StatusKeepsIndexes(s, next);
  }

  lemma {:induction false} StepKeeps(c: Config, s: Store, e: Event)
    requires LinksOk(s.registry) && IndexesOk(s) && Enabled(s, e)
    ensures LinksOk(Step(c, s, e).registry) && IndexesOk(Step(c, s, e))
  {
    match e
    case Write(d, id, now) =>
      if Create(c, s, d, id, now).Some? {
        CreateLinks(c, s, d, id, now);
        CreateIndexes(c, s, d, id, now);
      }
    case Judge(id, status) => MarkKeeps(s, id, status);
  }

  lemma {:induction false} EmptyOk()
    ensures LinksOk(Empty().registry) && IndexesOk(Empty())
  {
    assert forall t :: Listed(Empty().byTask, t) == [] && OfTask(Empty().registry, t) == {};
    assert forall r :: Listed(Empty().byRun, r) == [] && OfRun(Empty().registry, r) == {};
  }

  /** Over every run of creates with fresh ids: versions follow predecessors, and the indexes list every
      artifact of a task, of a run and of the store exactly once. */
  lemma {:induction false} RunKeeps(c: Config, events: seq<Event>, n: nat)
    requires n <= |events| && Enabling(c, events)
    ensures LinksOk(Run(c, events, n).registry) && IndexesOk(Run(c, events, n))
  {
    if n > 0 {
      RunKeeps(c, events, n - 1);
      assert EnabledAt(c, events, n - 1);
      StepKeeps(c, Run(c, events, n - 1), events[n - 1]);
    } else {
      EmptyOk();
    }
  }

  /** Over every such run a lineage is the versions one to that of the artifact, one by one, followed by
      its direct successors: so predecessor links cannot form a cycle. */
  lemma {:induction false} LineageOverRuns(c: Config, events: seq<Event>, id: ArtifactId)
    requires Enabling(c, events) && id in Run(c, events, |events|).registry
    ensures var s := Run(c, events, |events|);
            LinksOk(s.registry) &&
            var v, chain := s.registry[id].version, Lineage(s, id);
            && 1 <= v <= |chain| && chain[v - 1] == s.registry[id]
            && (forall i | 0 <= i < v :: chain[i].version == i + 1)
            && (forall i | v <= i < |chain| :: chain[i].version == v + 1 && chain[i].predecessor == Some(id))
  {
    RunKeeps(c, events, |events|);
    LineageIs(Run(c, events, |events|), id);
  }

  // ----- Integrity -----

  /** The bytes of the latest create, among the first n events, whose path leads to this place. */
  function LatestAt(c: Config, events: seq<Event>, n: nat, where: Path): Option<Bytes>
    requires n <= |events|
  {
    if n == 0 then None
    else
      var e := events[n - 1];
      if e.Write? && c.resolve(e.draft.path) == Some(where) then Some(e.draft.content) else LatestAt(c, events, n - 1, where)
  }

  /** The bytes of the create that made this artifact. */
  function WrittenBy(c: Config, events: seq<Event>, n: nat, id: ArtifactId): Option<Bytes>
    requires n <= |events|
  {
    if n == 0 then None
    else
      var e := events[n - 1];
      if e.Write? && c.resolve(e.draft.path).Some? && e.id == id then Some(e.draft.content) else WrittenBy(c, events, n - 1, id)
  }

  ghost predicate Injective(hash: Bytes -> Hash) {
    forall a, b | hash(a) == hash(b) :: a == b
  }

  lemma {:induction false} DiskIs(c: Config, events: seq<Event>, n: nat, where: Path)
    requires n <= |events| && c.root
    ensures var disk := Run(c, events, n).disk;
            LatestAt(c, events, n, where) == if where in disk then Some(disk[where]) else None
  {
    if n > 0 { DiskIs(c, events, n - 1, where); }
  }

  /** An artifact is new, or keeps its path and hash. */
  lemma {:induction false} ArtifactAfter(c: Config, s: Store, e: Event, id: ArtifactId)
    requires id in Step(c, s, e).registry
    ensures var a := Step(c, s, e).registry[id];
            if e.Write? && c.resolve(e.draft.path).Some? && e.id == id then
              a.path == e.draft.path && a.hash == c.hash(e.draft.content)
            else
              id in s.registry && a.path == s.registry[id].path && a.hash == s.registry[id].hash
  {}

  lemma {:induction false} HashIs(c: Config, events: seq<Event>, n: nat, id: ArtifactId)
    requires n <= |events| && id in Run(c, events, n).registry
    ensures var a := Run(c, events, n).registry[id];
            && c.resolve(a.path).Some? && WrittenBy(c, events, n, id).Some?
            && c.hash(WrittenBy(c, events, n, id).value) == a.hash
  {
    var e := events[n - 1];
    ArtifactAfter(c, Run(c, events, n - 1), e, id);
    if !(e.Write? && c.resolve(e.draft.path).Some? && e.id == id) { HashIs(c, events, n - 1, id); }
  }

  /** With an injective hash an artifact is intact exactly when the latest create at its place wrote the
      same bytes as its own; a store without a root answers no. */
  lemma {:induction false} IntegrityIs(c: Config, events: seq<Event>, id: ArtifactId)
    requires Injective(c.hash)
    ensures var n, s := |events|, Run(c, events, |events|);
            VerifyIntegrity(c, s, id) <==>
              && c.root && id in s.registry && c.resolve(s.registry[id].path).Some?
              && WrittenBy(c, events, n, id).Some?
              && LatestAt(c, events, n, c.resolve(s.registry[id].path).value) == WrittenBy(c, events, n, id)
  {
    var n, s := |events|, Run(c, events, |events|);
    if id in s.registry {
      HashIs(c, events, n, id);
      if c.root { DiskIs(c, events, n, c.resolve(s.registry[id].path).value); }
    }
  }

  /** A create at another place never changes the answer. */
  lemma {:induction false} ElsewhereIsHarmless(c: Config, s: Store, d: Draft, id: ArtifactId, now: int, x: ArtifactId)
    requires Unseen(s, id) && x in s.registry && c.resolve(d.path) != c.resolve(s.registry[x].path)
    ensures VerifyIntegrity(c, Step(c, s, Write(d, id, now)), x) == VerifyIntegrity(c, s, x)
  {}

  // ----- The store as an object -----

  class ArtifactStore {
    const config: Config
    var registry: map<ArtifactId, Artifact>
    var order: seq<ArtifactId>
    var byTask: map<TaskId, seq<ArtifactId>>
    var byRun: map<RunId, seq<ArtifactId>>
    var disk: map<Path, Bytes>

    ghost function View(): Store
      reads this
    {
      Store(registry, order, byTask, byRun, disk)
    }

    ghost predicate Valid()
      reads this
    {
      LinksOk(registry) && IndexesOk(View())
    }

    constructor (config: Config)
      ensures Valid() && View() == Empty() && this.config == config
    {
      this.config := config;
      registry, order, byTask, byRun, disk := map[], [], map[], map[], map[];
      new;
      EmptyOk();
    }

    /** None is the error raised for a path that leaves the root. */
    method Create(d: Draft, id: ArtifactId, now: int) returns (made: Option<Artifact>)
      requires Valid() && Unseen(View(), id) && d.parent != Some(id)
      modifies this
      ensures Valid() && View() == Step(config, old(View()), Write(d, id, now))
      ensures made == if config.resolve(d.path).None? then None else Some(Built(config, old(View()), d, id, now))
    {
      ghost var before := View();
      var where := config.resolve(d.path);
      if where.None? { return None; }
      var a := Build(d, id, now);
      if config.root { disk := disk[where.value := d.content]; }
      Register(a, d);
      assert View() == Step(config, before, Write(d, id, now));
      StepKeeps(config, before, Write(d, id, now));
      return Some(a);
    }

    method Build(d: Draft, id: ArtifactId, now: int) returns (a: Artifact)
      ensures a == Built(config, View(), d, id, now)
    {
      var hash, version, predecessor := config.hash(d.content), 1, None;
      if d.parent.Some? && d.parent.value != "" && d.parent.value in registry {
        version, predecessor := registry[d.parent.value].version + 1, d.parent;
      }
      a := Artifact(id, d.run, d.task, d.path, hash, version, Published, now, predecessor, d.parent);
    }

    method Register(a: Artifact, d: Draft)
      requires a.predecessor == if Repairs(View(), d) then d.parent else None
      modifies this`registry, this`order, this`byTask, this`byRun
      ensures registry == Registered(old(View()), d, a)
      ensures order == old(order) + [a.id]
      ensures byTask == old(byTask)[a.task := Listed(old(byTask), a.task) + [a.id]]
      ensures byRun == old(byRun)[a.run := Listed(old(byRun), a.run) + [a.id]]
    {
      if a.predecessor.Some? {
        registry := registry[a.predecessor.value := registry[a.predecessor.value].(status := Superseded)];
      }
      registry := registry[a.id := a];
      order := order + [a.id];
      byTask := byTask[a.task := (if a.task in byTask then byTask[a.task] else []) + [a.id]];
      byRun := byRun[a.run := (if a.run in byRun then byRun[a.run] else []) + [a.id]];
    }

    method MarkStatus(id: ArtifactId, status: ArtifactStatus) returns (ok: bool)
      requires Valid()
      modifies this`registry
      ensures Valid() && View() == Mark(old(View()), id, status)
      ensures ok == (id in old(registry))
    {
      MarkKeeps(View(), id, status);
      if id !in registry { return false; }
      registry := registry[id := registry[id].(status := status)];
      return true;
    }

    method CheckIntegrity(id: ArtifactId) returns (intact: bool)
      ensures intact == VerifyIntegrity(config, View(), id)
    {
      if id !in registry || !config.root { return false; }
      var where := config.resolve(registry[id].path);
      if where.None? || where.value !in disk { return false; }
      return config.hash(disk[where.value]) == registry[id].hash;
    }

    /** The artifacts the task index lists, in its order; an id the registry does not know would be passed over. */
    method ListByTask(task: TaskId) returns (artifacts: seq<Artifact>)
      requires Valid()
      ensures |artifacts| == |Listed(byTask, task)|
      ensures forall i | 0 <= i < |artifacts| :: var x := Listed(byTask, task)[i]; x in registry && artifacts[i] == registry[x]
    {
      artifacts := [];
      var ids := if task in byTask then byTask[task] else [];
      for i := 0 to |ids|
        invariant |artifacts| == i
        invariant forall j | 0 <= j < i :: ids[j] in registry && artifacts[j] == registry[ids[j]]
      {
        ListedIn(ids, OfTask(registry, task), i);
        if ids[i] in registry {
          artifacts := artifacts + [registry[ids[i]]];
        }
      }
    }

    /** Walks back to the first version; the guard against a cycle never stops the walk. */
    method WalkBack(id: ArtifactId) returns (back: seq<Artifact>, seen: set<ArtifactId>)
      requires LinksOk(registry) && id in registry
      ensures Reversed(back) == Ancestors(registry, id)
      ensures forall x | x in seen :: x in registry && registry[x].version <= registry[id].version
    {
      back, seen := [], {};
      var current := Some(registry[id]);
      while current.Some? && current.value.id !in seen
        invariant current.Some? ==> current.value.id in registry && registry[current.value.id] == current.value
        invariant current.Some? ==> current.value.version <= registry[id].version
        invariant forall x | x in seen :: x in registry && registry[x].version <= registry[id].version
        invariant current.Some? ==> forall x | x in seen :: registry[x].version > current.value.version
        invariant Ancestors(registry, id) == Before(registry, current) + Reversed(back)
        decreases if current.Some? then current.value.version + 1 else 0
      {
        var a := current.value;
        WalkStep(registry, a, Reversed(back));
        seen := seen + {a.id};
        back := back + [a];
        var previous := Previous(a);
        current := if previous.Some? && previous.value in registry then Some(registry[previous.value]) else None;
        ReversedMore(back[..|back| - 1], a);
      }
    }

    method WalkLineage(id: ArtifactId) returns (chain: seq<Artifact>)
      requires Valid()
      ensures chain == Lineage(View(), id)
    {
      if id !in registry { return []; }
      var back, seen := WalkBack(id);
      var descendants := CollectFollowers(id);
      descendants := Sort(Older, descendants);
      SuccessorsUnseen(View(), id, seen);
      chain := ExtendUnseen(Reversed(back), descendants, seen);
    }

    method ExtendUnseen(chain: seq<Artifact>, items: seq<Artifact>, seen: set<ArtifactId>) returns (all: seq<Artifact>)
      ensures (forall i | 0 <= i < |items| :: items[i].id !in seen) ==> all == chain + items
    {
      all := chain;
      for j := 0 to |items|
        invariant (forall i | 0 <= i < j :: items[i].id !in seen) ==> all == chain + items[..j]
      {
        if items[j].id !in seen {
          all := all + [items[j]];
        }
      }
    }

    method CollectFollowers(id: ArtifactId) returns (items: seq<Artifact>)
      ensures items == Followers(View(), |order|, id)
    {
      items := [];
      for i := 0 to |order|
        invariant items == Followers(View(), i, id)
      {
        if order[i] in registry && Follows(registry[order[i]], id) {
          items := items + [registry[order[i]]];
        }
      }
    }
  }

  lemma {:induction false} SuccessorsUnseen(s: Store, id: ArtifactId, seen: set<ArtifactId>)
    requires LinksOk(s.registry) && IndexesOk(s) && id in s.registry
    requires forall x | x in seen :: x in s.registry && s.registry[x].version <= s.registry[id].version
    ensures forall i | 0 <= i < |Successors(s, id)| :: Successors(s, id)[i].id !in seen
  {
    SuccessorsAre(s, id);
    forall i | 0 <= i < |Successors(s, id)| ensures Successors(s, id)[i].id !in seen {
      assert Successors(s, id)[i] in Successors(s, id);
    }
  }

  lemma {:induction false} ListedIn(list: seq<ArtifactId>, members: set<ArtifactId>, i: nat)
    requires Lists(list, members) && i < |list|
    ensures list[i] in members
  {
    assert list[i] in multiset(list);
  }

  function Reversed(s: seq<Artifact>): seq<Artifact> {
    if |s| == 0 then [] else [s[|s| - 1]] + Reversed(s[..|s| - 1])
  }

  lemma {:induction false} ReversedMore(s: seq<Artifact>, a: Artifact)
    ensures Reversed(s + [a]) == [a] + Reversed(s)
  {
    assert (s + [a])[..|s|] == s;
  }

  /** What a walk that stands at this artifact has still to find. */
  ghost function Before(registry: map<ArtifactId, Artifact>, current: Option<Artifact>): seq<Artifact>
    requires LinksOk(registry) && (current.Some? ==> current.value.id in registry)
  {
    if current.Some? then Ancestors(registry, current.value.id) else []
  }

  lemma {:induction false} WalkStep(registry: map<ArtifactId, Artifact>, a: Artifact, rest: seq<Artifact>)
    requires LinksOk(registry) && a.id in registry && registry[a.id] == a
    ensures var previous := Previous(a);
            var next := if previous.Some? && previous.value in registry then Some(registry[previous.value]) else None;
            && (next.Some? ==> next.value.id in registry && registry[next.value.id] == next.value && next.value.version < a.version)
            && Ancestors(registry, a.id) + rest == Before(registry, next) + ([a] + rest)
  {
    assert Linked(registry, a);
    var up := if a.predecessor.Some? then Ancestors(registry, a.predecessor.value) else [];
    AncestorsStep(registry, a, up);
    Regroups(up, a, rest);
  }

  lemma {:induction false} AncestorsStep(registry: map<ArtifactId, Artifact>, a: Artifact, up: seq<Artifact>)
    requires LinksOk(registry) && a.id in registry && registry[a.id] == a && Linked(registry, a)
    requires up == if a.predecessor.Some? then Ancestors(registry, a.predecessor.value) else []
    ensures Ancestors(registry, a.id) == up + [a]
  {}

  lemma {:induction false} Regroups(up: seq<Artifact>, a: Artifact, rest: seq<Artifact>)
    ensures (up + [a]) + rest == up + ([a] + rest)
  {}

}
