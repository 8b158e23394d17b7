/** Concrete runs on which the code does less than one may expect. */
module Witness {
  import opened Types
  import opened NodeCodec
  import opened Storage
  import opened NodeSpec
  import opened Protocol
  import opened ProtocolInv
  import opened ProtocolLoads
  import opened ProtocolTheorems
  import opened ProtocolContent
  import opened Executions

  // ----- Operations that meet no fault -----

  const ALL_WORK: seq<Fault> := [Works, Works, Works, Works]

  /** The store and its history after an accepted and acknowledged put of n, and the new broadcasts. */
  ghost function Accepted(clients: set<ClientId>, sh: Shared, cid: ClientId, m: NodeId, n: Node, links: map<bytes, Key>): Shared {
    var v := Next(n.a.version);
    sh.(store := sh.store[n.a.key := Entry(v, RecordOf(n.a, links))],
        log := sh.log[(n.a.key, v) := Put(RecordOf(n.a, links), cid, m, true, VersionOf(sh.store, n.a.key), n.origin)],
        pending := sh.pending + multiset(set d | d in clients && d != cid :: Cast(d, n.a.key, v)))
  }

  /** A sync without faults of an object without dirty content. */
  lemma SyncWorks(hash: bytes -> bytes, clients: set<ClientId>, sh: Shared, cid: ClientId, m: NodeId, n: Node, links: map<bytes, Key>)
    requires n.a.saveMetadata && !n.a.saveContent && VersionOf(sh.store, n.a.key) <= n.a.version < MAX_UINT64
    ensures SyncOf(hash, clients, sh, cid, m, n, links, Works, Works) ==
      (n.(a := n.a.(version := Next(n.a.version), saveMetadata := false), origin := Origin(n.a.key, Next(n.a.version))),
       Accepted(clients, sh, cid, m, n, links), true)
  {
  }

  // ----- The cast -----

  const NAME: bytes := [120]
  const KEY_A: Key := [1] + Zeros(19)
  const KEY_B: Key := [2] + Zeros(19)
  const KEY_C: Key := [3] + Zeros(19)

  /** The root of an empty file system, at this version. */
  function Root(version: uint64, children: map<bytes, NodeId>): Node {
    Node(Fresh(ROOT_KEY).(version := version), children, Origin(ROOT_KEY, version))
  }

  /** A saved empty file or directory. */
  function SavedNode(key: Key, version: uint64, user: uint32, mode: uint32): Node {
    Node(Created(key, mode, 0).(version := version, user := user), map[], Origin(key, version))
  }

  function RootEntry(version: uint64, links: map<bytes, Key>): Entry<Record> {
    Entry(version, RecordOf(Fresh(ROOT_KEY), links))
  }

  function NodeEntry(version: uint64, user: uint32, mode: uint32): Entry<Record> {
    Entry(version, RecordOf(Created(KEY_A, mode, 0).(user := user), map[]))
  }

  predicate Idle(c: Client) {
    c.locks == map[] && c.threads == map[]
  }

  /** A client that has nothing in progress and exactly these objects. */
  predicate HasNodes(c: Client, nodes: map<NodeId, Node>, known: map<bytes, NodeId>) {
    Idle(c) && c.nodes == nodes && c.known == known
  }

  // ----- The run -----

  lemma NothingReached(hash: bytes -> bytes)
    ensures Reaches(hash, [], NOTHING)
  {
    assert IsTrace(hash, [], [NOTHING]);
  }

  lemma ReachedShape(hash: bytes -> bytes, run: seq<Label>, w: World, cid: ClientId)
    requires Reaches(hash, run, w) && cid in w.clients
    ensures Shape(w.clients[cid])
  {
    hide Reaches, Shape;
    ReachedClient(hash, run, w, cid);
    ClientShape(w.clients[cid], w.shared, |run|);
  }

  /** What a client's directory is after a creation in it that meets no fault. */
  function AfterCreate(n: Node, name: bytes, child: NodeId): Node {
    Node(n.a.(version := Next(n.a.version), saveMetadata := false), n.children[name := child], Origin(n.a.key, Next(n.a.version)))
  }

  lemma CreateWorks(hash: bytes -> bytes, run: seq<Label>, w: World, cid: ClientId, p: NodeId, kind: Kind, child: NodeId, key: Key, mode: uint16)
      returns (run': seq<Label>, w': World)
    requires Reaches(hash, run, w) && |run| + 5 < MAX_UINT64 as int && cid in w.clients
    requires kind != Link && CanBegin(w.clients[cid], w.shared.store, p, Create(NAME, kind, child, key, mode, 0, []))
    requires var n := w.clients[cid].nodes[p];
      !n.a.saveContent && n.a.key != key && VersionOf(w.shared.store, n.a.key) <= n.a.version < MAX_UINT64
    ensures Reaches(hash, run', w') && |run'| <= |run| + 5
    ensures var (c, keys) := (w.clients[cid], w.clients.Keys);
      var n, sh1 := c.nodes[p], Accepted(keys, w.shared, cid, child, NewChild(kind, key, mode, 0, []), map[]);
      && cid in w'.clients && w'.clients == w.clients[cid := w'.clients[cid]]
      && HasNodes(w'.clients[cid].(locks := map[], threads := map[]), c.nodes[p := AfterCreate(n, NAME, child)][child := SavedNode(key, 1, 0, ModeOf(kind, mode))],
           AddKnown(c.known, key, child))
      && w'.clients[cid].locks == c.locks && w'.clients[cid].threads == c.threads
      && w'.shared == Accepted(keys, sh1, cid, p, n.(a := n.a.(saveMetadata := true), children := n.children[NAME := child]),
           LinksOf(c.nodes, n.children)[NAME := key])
  {
    hide Reaches, LinksOf, Shape, AddKnown, Accepted, SyncOf, ModeOf;
    var op := Create(NAME, kind, child, key, mode, 0, []);
    var c, keys := w.clients[cid], w.clients.Keys;
    var n, m := c.nodes[p], NewChild(kind, key, mode, 0, []);
    ReachedShape(hash, run, w, cid);
    var labels := CreationRuns(hash, run, w, cid, p, op, ALL_WORK);
    run', w' := run + labels, CreateOperated(hash, w, cid, p, op, ALL_WORK);
    SyncWorks(hash, keys, w.shared, cid, child, m, map[]);
    AcceptedElse(keys, w.shared, cid, child, m, map[], n.a.key);
    SyncWorks(hash, keys, Accepted(keys, w.shared, cid, child, m, map[]), cid, p,
      n.(a := n.a.(saveMetadata := true), children := n.children[NAME := child]), LinksOf(c.nodes, n.children)[NAME := key]);
  }

  lemma AcceptedElse(clients: set<ClientId>, sh: Shared, cid: ClientId, m: NodeId, n: Node, links: map<bytes, Key>, key: Key)
    requires key != n.a.key
    ensures VersionOf(Accepted(clients, sh, cid, m, n, links).store, key) == VersionOf(sh.store, key)
  {
  }

  /** An operation with a single sync that meets no fault. */
  lemma SimpleWorks(hash: bytes -> bytes, run: seq<Label>, w: World, cid: ClientId, p: NodeId, op: Op)
      returns (run': seq<Label>, w': World)
    requires Reaches(hash, run, w) && |run| + 3 < MAX_UINT64 as int && cid in w.clients
    requires CanBegin(w.clients[cid], w.shared.store, p, op) && IsSimple(op)
    requires var n := Prepared(w.clients[cid], w.shared.store, p, op).0;
      n.a.saveMetadata && !n.a.saveContent && VersionOf(w.shared.store, n.a.key) <= n.a.version < MAX_UINT64
    ensures Reaches(hash, run', w') && |run'| <= |run| + 3
    ensures var (c, n, v) := (w.clients[cid], Prepared(w.clients[cid], w.shared.store, p, op).0, Next(Prepared(w.clients[cid], w.shared.store, p, op).0.a.version));
      && cid in w'.clients && w'.clients == w.clients[cid := w'.clients[cid]]
      && HasNodes(w'.clients[cid].(locks := map[], threads := map[]),
           c.nodes[p := Node(n.a.(version := v, saveMetadata := false), n.children, Origin(n.a.key, v))], c.known)
      && w'.clients[cid].locks == c.locks && w'.clients[cid].threads == c.threads
      && w'.shared == Accepted(w.clients.Keys, w.shared, cid, p, n, LinksOf(c.nodes, n.children))
  {
    hide Reaches, LinksOf, Shape, Accepted, SyncOf, CanBegin, Prepared;
    var c := w.clients[cid];
    var (n, undo) := Prepared(c, w.shared.store, p, op);
    ReachedShape(hash, run, w, cid);
    var labels := OperationRuns(hash, run, w, cid, p, op, Works, Works);
    run', w' := run + labels, Operated(hash, w, cid, p, op, Works, Works);
    SyncWorks(hash, w.clients.Keys, w.shared, cid, p, n, LinksOf(c.nodes, n.children));
  }

  /** One step of a run. */
  lemma OneStep(hash: bytes -> bytes, run: seq<Label>, w: World, l: Label) returns (run': seq<Label>, w': World)
    requires Reaches(hash, run, w) && Enabled(w, l) && |run| + 1 < MAX_UINT64 as int
    ensures Reaches(hash, run', w') && |run'| == |run| + 1
    ensures w' == Executions.With(w, Mover(l), Moved(hash, w, l), Spread(hash, w, l))
  {
    hide Reaches, Enabled, Moved, Spread;
    Extend(hash, run, w, l);
    StepOf(hash, w, l);
    run', w' := run + [l], Step(hash, w, l).value;
  }

  // ----- The run -----

  /** The modes of what the first client creates, a file or a directory, and of the other one's file. */
  function ModeA(kind: Kind): (m: uint32)
    ensures m <= 0xffff
  {
    ModeOf(kind, 0x1a4)
  }

  const MODE_B: uint32 := 0x8180

  lemma KeysDiffer()
    ensures KEY_A != KEY_B && KEY_A != ROOT_KEY && KEY_B != ROOT_KEY
    ensures KEY_C != KEY_A && KEY_C != KEY_B && KEY_C != ROOT_KEY
  {
    assert KEY_A[0] == 1 && KEY_B[0] == 2 && KEY_C[0] == 3 && ROOT_KEY[0] == 0;
  }

  lemma ModesDiffer()
    ensures ModeOf(File, 0x180) == MODE_B && ModeA(File) != MODE_B && !IsDirectory(MODE_B)
  {
  }

  /** A client mounts the empty file system and creates a file in it. */
  lemma FirstFile(hash: bytes -> bytes, kind: Kind) returns (run: seq<Label>, w: World)
    requires kind != Link
    ensures Reaches(hash, run, w) && |run| <= 6 && w.clients.Keys == {0}
    ensures HasNodes(w.clients[0], map[ROOT := Root(1, map[NAME := 1]), 1 := SavedNode(KEY_A, 1, 0, ModeA(kind))], map[ROOT_KEY := ROOT, KEY_A := 1])
    ensures w.shared.store == map[KEY_A := NodeEntry(1, 0, ModeA(kind)), ROOT_KEY := RootEntry(1, map[NAME := KEY_A])] && w.shared.blobs == map[]
  {
    hide Reaches, IsTrace, KEY_A;
    NothingReached(hash);
    KeysDiffer();
    var w0: World;
    run, w0 := OneStep(hash, [], NOTHING, Mount(0, Arrivals(map[], map[])));
    assert w0.clients == map[0 := NewClient()];
    run, w := CreateWorks(hash, run, w0, 0, ROOT, kind, 1, KEY_A, 0x1a4);
  }

  function Chown(user: uint32): Op {
    Setattr(Change(None, Some(user), None, None, false), [], 0)
  }

  function VersionOfA(ahead: bool): uint64 { if ahead then 2 else 1 }

  function UserOfA(ahead: bool): uint32 { if ahead then 5 else 0 }

  /** If ahead, it changes the file once more. */
  lemma FileOfA(hash: bytes -> bytes, ahead: bool, kind: Kind) returns (run: seq<Label>, w: World)
    requires kind != Link
    ensures Reaches(hash, run, w) && |run| <= 9 && w.clients.Keys == {0}
    ensures HasNodes(w.clients[0], map[ROOT := Root(1, map[NAME := 1]), 1 := SavedNode(KEY_A, VersionOfA(ahead), UserOfA(ahead), ModeA(kind))],
      map[ROOT_KEY := ROOT, KEY_A := 1])
    ensures w.shared.store == map[KEY_A := NodeEntry(VersionOfA(ahead), UserOfA(ahead), ModeA(kind)), ROOT_KEY := RootEntry(1, map[NAME := KEY_A])]
  {
    hide Reaches, KEY_A, ModeA;
    KeysDiffer();
    run, w := FirstFile(hash, kind);
    if ahead {
      run, w := SimpleWorks(hash, run, w, 0, 1, Chown(5));
    }
  }

  /** Another client mounts it. */
  lemma SecondMount(hash: bytes -> bytes, ahead: bool, kind: Kind) returns (run: seq<Label>, w: World)
    requires kind != Link
    ensures Reaches(hash, run, w) && |run| <= 10 && w.clients.Keys == {0, 1}
    ensures HasNodes(w.clients[0], map[ROOT := Root(1, map[NAME := 1]), 1 := SavedNode(KEY_A, VersionOfA(ahead), UserOfA(ahead), ModeA(kind))],
      map[ROOT_KEY := ROOT, KEY_A := 1])
    ensures HasNodes(w.clients[1], map[ROOT := Root(1, map[NAME := 1]), 1 := Unloaded(KEY_A)], map[ROOT_KEY := ROOT, KEY_A := 1])
    ensures w.shared.store == map[KEY_A := NodeEntry(VersionOfA(ahead), UserOfA(ahead), ModeA(kind)), ROOT_KEY := RootEntry(1, map[NAME := KEY_A])]
  {
    hide Reaches, KEY_A, LoadInto;
    KeysDiffer();
    run, w := FileOfA(hash, ahead, kind);
    var arr := Arrivals(map[NAME := 1], map[ROOT_KEY := ROOT, KEY_A := 1]);
    OneArrival(NewClient(), KEY_A, 1);
    LoadIntoIs(NewClient(), ROOT, RootEntry(1, map[NAME := KEY_A]), arr);
    FirstLoad(LoadInto(NewClient(), ROOT, RootEntry(1, map[NAME := KEY_A]), arr), KEY_A, 1, arr);
    run, w := OneStep(hash, run, w, Mount(1, arr));
  }

  lemma OneArrival(c: Client, key: Key, id: NodeId)
    requires id !in c.nodes && key !in c.known
    ensures Arrive(c, map[NAME := key], Arrivals(map[NAME := id], c.known[key := id]))
  {
    assert NAME in map[NAME := key];
  }

  lemma FirstLoad(d: Client, key: Key, id: NodeId, arr: Arrivals)
    requires Loads(NewClient(), d, ROOT, RootEntry(1, map[NAME := key]), arr) && arr.ids == map[NAME := id]
    ensures HasNodes(d, map[ROOT := Root(1, map[NAME := id]), id := Unloaded(key)], arr.known)
  {
    hide Loaded;
    LoadedRoot(NewClient().nodes[ROOT].a, key);
    assert NAME in arr.ids && arr.ids.Values == {id};
    assert d.nodes.Keys == {ROOT, id};
  }

  lemma LoadedRoot(a: Attrs, key: Key)
    requires a == Fresh(ROOT_KEY)
    ensures Loaded(a, ROOT_KEY, 1, RootEntry(1, map[NAME := key]).value) == a.(version := 1)
  {
  }

  lemma PreparedRemoval(c: Client, store: map<bytes, Entry<Record>>, p: NodeId, op: Op)
    requires op in {Rmdir(NAME), Unlink(NAME)} && CanBegin(c, store, p, op)
    ensures Prepared(c, store, p, op).0 == c.nodes[p].(children := c.nodes[p].children - {NAME}, a := c.nodes[p].a.(saveMetadata := true))
  {
  }

  /** The other client removes the file. */
  lemma NoFile(hash: bytes -> bytes, ahead: bool, kind: Kind) returns (run: seq<Label>, w: World)
    requires kind != Link
    ensures Reaches(hash, run, w) && |run| <= 13 && w.clients.Keys == {0, 1}
    ensures HasNodes(w.clients[0], map[ROOT := Root(1, map[NAME := 1]), 1 := SavedNode(KEY_A, VersionOfA(ahead), UserOfA(ahead), ModeA(kind))],
      map[ROOT_KEY := ROOT, KEY_A := 1])
    ensures Idle(w.clients[1]) && w.clients[1].nodes == map[ROOT := Root(2, map[]), 1 := Unloaded(KEY_A)]
    ensures w.shared.store == map[KEY_A := NodeEntry(VersionOfA(ahead), UserOfA(ahead), ModeA(kind)), ROOT_KEY := RootEntry(2, map[])]
  {
    hide Reaches, KEY_A, SavedNode, NodeEntry, ModeA, Prepared;
    KeysDiffer();
    run, w := SecondMount(hash, ahead, kind);
    var op := if kind == Directory then Rmdir(NAME) else Unlink(NAME);
    PreparedRemoval(w.clients[1], w.shared.store, ROOT, op);
    run, w := SimpleWorks(hash, run, w, 1, ROOT, op);
  }

  /** It creates a new file of the same name. */
  lemma FileOfB(hash: bytes -> bytes, ahead: bool, kind: Kind) returns (run: seq<Label>, w: World)
    requires kind != Link
    ensures Reaches(hash, run, w) && |run| <= 18 && w.clients.Keys == {0, 1}
    ensures HasNodes(w.clients[0], map[ROOT := Root(1, map[NAME := 1]), 1 := SavedNode(KEY_A, VersionOfA(ahead), UserOfA(ahead), ModeA(kind))],
      map[ROOT_KEY := ROOT, KEY_A := 1])
    ensures ROOT_KEY in w.shared.store && w.shared.store[ROOT_KEY] == RootEntry(3, map[NAME := KEY_B])
    ensures KEY_B in w.shared.store && w.shared.store[KEY_B] == NodeEntry(1, 0, MODE_B)
    ensures IsPutOfB(w.shared.log) && Cast(0, ROOT_KEY, 3) in w.shared.pending && KEY_C !in w.shared.store
  {
    hide Reaches, KEY_A, KEY_B, KEY_C, HasNodes, ModeA, SavedNode, Accepted;
    KeysDiffer();
    var before: World;
    run, before := NoFile(hash, ahead, kind);
    run, w := CreateWorks(hash, run, before, 1, ROOT, File, 2, KEY_B, 0x180);
    assert LinksOf(before.clients[1].nodes, map[]) == map[];
    BIsAccepted(before.clients.Keys, before.shared);
  }

  /** The stores after the creation of that file. */
  lemma BIsAccepted(clients: set<ClientId>, sh: Shared)
    requires 0 in clients && sh.store.Keys == {KEY_A, ROOT_KEY} && sh.store[ROOT_KEY].version == 2
    ensures var sh1 := Accepted(clients, sh, 1, 2, NewChild(File, KEY_B, 0x180, 0, []), map[]);
      var n := Root(2, map[]);
      var sh2 := Accepted(clients, sh1, 1, ROOT, n.(a := n.a.(saveMetadata := true), children := map[NAME := 2]), map[NAME := KEY_B]);
      && ROOT_KEY in sh2.store && sh2.store[ROOT_KEY] == RootEntry(3, map[NAME := KEY_B])
      && KEY_B in sh2.store && sh2.store[KEY_B] == NodeEntry(1, 0, MODE_B) && KEY_C !in sh2.store
      && IsPutOfB(sh2.log) && Cast(0, ROOT_KEY, 3) in sh2.pending
  {
    hide KEY_A, KEY_B, KEY_C;
    KeysDiffer();
    ModesDiffer();
    assert Cast(0, ROOT_KEY, 3) in (set d | d in clients && d != 1 :: Cast(d, ROOT_KEY, 3)) by { assert 0 in clients; }
  }

  /** The history has the first version of the new file, with its mode. */
  predicate IsPutOfB(log: map<(bytes, uint64), Put>) {
    (KEY_B, 1) in log && log[(KEY_B, 1)].client == 1 && log[(KEY_B, 1)].record == NodeEntry(1, 0, MODE_B).value
  }

  /** The first client hears of it and reloads the directory, which gives its object the new file's key. */
  lemma RekeyedFile(hash: bytes -> bytes, ahead: bool, kind: Kind) returns (run: seq<Label>, w: World)
    requires kind != Link
    ensures Reaches(hash, run, w) && |run| <= 20 && w.clients.Keys == {0, 1}
    ensures 1 in w.clients[0].nodes && Idle(w.clients[0])
    ensures w.clients[0].nodes[1] == Rekey(SavedNode(KEY_A, VersionOfA(ahead), UserOfA(ahead), ModeA(kind)), KEY_B)
    ensures KEY_B in w.shared.store && w.shared.store[KEY_B] == NodeEntry(1, 0, MODE_B) && IsPutOfB(w.shared.log)
    ensures KEY_C !in w.shared.store
  {
    hide Reaches, KEY_A, KEY_B, KEY_C, ReloadStep, IsPutOfB;
    KeysDiffer();
    run, w := FileOfB(hash, ahead, kind);
    run, w := OneStep(hash, run, w, Deliver(Cast(0, ROOT_KEY, 3)));
    var c := w.clients[0];
    var arr := Arrivals(map[NAME := 2], c.known[KEY_B := 2]);
    OneArrival(c, KEY_B, 2);
    ReloadRekeys(c, arr);
    run, w := OneStep(hash, run, w, Reload(0, ROOT, arr));
  }

  lemma ReloadRekeys(c: Client, arr: Arrivals)
    requires ROOT in c.nodes && 1 in c.nodes && c.nodes[ROOT].children == map[NAME := 1]
    requires arr.ids == map[NAME := 2] && Arrive(c, map[NAME := KEY_B], arr)
    ensures var d := ReloadStep(c, ROOT, RootEntry(3, map[NAME := KEY_B]), arr);
      1 in d.nodes && d.nodes[1] == Rekey(c.nodes[1], KEY_B) && d.locks == c.locks && d.threads == c.threads
  {
    hide Arrive, ReloadStep, Rekey, KEY_B;
    ReloadStepIs(c, ROOT, RootEntry(3, map[NAME := KEY_B]), arr);
    assert NAME in c.nodes[ROOT].children && c.nodes[ROOT].children[NAME] == 1;
    assert NameOf(c.nodes[ROOT].children, 1) == Some(NAME);
  }

  /** A lost update: the first client changes the owner of the file that it has loaded as KEY_A. The put
      replaces version 1 of KEY_B, which it has never loaded; all of its fields are overwritten. With
      ahead, the new version is not even the next one; without, nothing in the version numbers tells. */
  lemma LostUpdate(hash: bytes -> bytes, ahead: bool) returns (run: seq<Label>, w: World)
    ensures Reaches(hash, run, w) && KEY_A != KEY_B && KEY_B in w.shared.store
    ensures var v := VersionOfA(ahead) + 1;
      && (KEY_B, v) in w.shared.log && w.shared.store[KEY_B] == Entry(v, w.shared.log[(KEY_B, v)].record)
      && var put := w.shared.log[(KEY_B, v)];
         && put.client == 0 && put.acked && put.replaced == 1 && put.origin == Origin(KEY_A, v - 1)
         && (KEY_B, 1) in w.shared.log && w.shared.log[(KEY_B, 1)].client == 1
         && w.shared.log[(KEY_B, 1)].record.mode == MODE_B && put.record.mode == ModeA(File)
  {
    hide Reaches, KEY_A, KEY_B, ModeA;
    KeysDiffer();
    ModesDiffer();
    run, w := RekeyedFile(hash, ahead, File);
    run, w := SimpleWorks(hash, run, w, 0, 1, Chown(7));
  }

  // ----- A file with a child -----

  /** What the first client had made was a directory. It follows the other one's file: its reload takes
      the mode of the file, but keeps the map of children. */
  lemma DirectoryBecomesFile(hash: bytes -> bytes) returns (run: seq<Label>, w: World)
    ensures Reaches(hash, run, w) && |run| <= 21 && 0 in w.clients && Free(w.clients[0], 1) && Idle(w.clients[0])
    ensures var n := w.clients[0].nodes[1]; n.a == Created(KEY_B, MODE_B, 0).(version := 1) && n.children == map[]
    ensures VersionOf(w.shared.store, KEY_B) == 1 && KEY_C !in w.shared.store
  {
    hide Reaches, KEY_A, KEY_B, KEY_C, ReloadStep, ModeA, IsPutOfB;
    KeysDiffer();
    run, w := RekeyedFile(hash, false, Directory);
    var c := w.clients[0];
    var e, arr := w.shared.store[KEY_B], Arrivals(map[], c.known);
    assert Arrive(c, map[], arr);
    ReloadStepIs(c, 1, e, arr);
    run, w := OneStep(hash, run, w, Reload(0, 1, arr));
  }

  /** A record with a child but the mode of a file: when the client now creates something in what was a
      directory to it, it gets stored, and LoadMetadata panics on it. */
  lemma FileWithChild(hash: bytes -> bytes) returns (run: seq<Label>, w: World)
    ensures Reaches(hash, run, w) && KEY_B in w.shared.store
    ensures var r := w.shared.store[KEY_B].value;
      && NAME in r.children && r.children[NAME] == KEY_C && !IsDirectory(r.mode)
      && forall image :: IsImage(image, r) ==> Restore(image) == Panic
  {
    hide Reaches, KEY_A, KEY_B, KEY_C, ModeA, ModeOf, IsImage, Restore;
    KeysDiffer();
    ModesDiffer();
    run, w := DirectoryBecomesFile(hash);
    var child := UnusedId(w.clients[0].nodes.Keys);
    run, w := CreateWorks(hash, run, w, 0, 1, File, child, KEY_C, 0x180);
    var r := w.shared.store[KEY_B].value;
    assert r == RecordOf(Created(KEY_B, 0, 0).(mode := MODE_B), map[NAME := KEY_C]);
    forall image | IsImage(image, r) ensures Restore(image) == Panic { FileWithChildrenPanics(r, image); }
  }

  // ----- Content keys that lead nowhere -----

  /** What an unsafe key leads to: if a node that is not busy, has no content to be stored and is at the
      server's version has a content key, the next change of it stores that key, which leads to a blob
      afterwards if and only if it does now. */
  lemma KeysGetStored(hash: bytes -> bytes, run: seq<Label>, w: World, cid: ClientId, p: NodeId) returns (run': seq<Label>, w': World)
    requires Reaches(hash, run, w) && |run| + 3 < MAX_UINT64 as int && cid in w.clients && Free(w.clients[cid], p)
    requires var a := w.clients[cid].nodes[p].a; !a.saveContent && VersionOf(w.shared.store, a.key) <= a.version < MAX_UINT64
    ensures Reaches(hash, run', w') && |run'| <= |run| + 3
    ensures var a := w.clients[cid].nodes[p].a;
      && a.key in w'.shared.store && w'.shared.store[a.key].value.contentKey == a.contentKey
      && (Resolves(a.contentKey, w'.shared.blobs) <==> Resolves(a.contentKey, w.shared.blobs))
      && w'.shared.blobs == w.shared.blobs
  {
    hide Reaches;
    run', w' := SimpleWorks(hash, run, w, cid, p, Chown(7));
  }

  /** The new file with content c1 that is still to be stored. */
  function Written(c1: bytes): Node {
    SavedNode(KEY_A, 1, 0, ModeA(File)).(a := Created(KEY_A, ModeA(File), 1).(version := 1, content := c1, saveContent := true))
  }

  lemma WrittenFile(hash: bytes -> bytes, c1: bytes) returns (run: seq<Label>, w: World)
    ensures Reaches(hash, run, w) && |run| <= 7 && w.clients.Keys == {0} && Idle(w.clients[0]) && 1 in w.clients[0].nodes
    ensures w.clients[0].nodes[1] == Written(c1) && w.shared.blobs == map[] && VersionOf(w.shared.store, KEY_A) == 1
  {
    hide Reaches, KEY_A;
    KeysDiffer();
    run, w := FirstFile(hash, File);
    run, w := OneStep(hash, run, w, Write(0, 1, c1, 1, true));
  }

  /** A client writes c1 to the new file, and a change of the file loses its blob. */
  lemma LostBlob(hash: bytes -> bytes, c1: bytes) returns (run: seq<Label>, w: World)
    ensures Reaches(hash, run, w) && |run| <= 10 && w.clients.Keys == {0} && Idle(w.clients[0]) && 1 in w.clients[0].nodes
    ensures w.clients[0].nodes[1] == Written(c1).(a := Written(c1).a.(contentKey := hash(c1), saveMetadata := true))
    ensures w.shared.blobs == map[] && VersionOf(w.shared.store, KEY_A) == 1
  {
    hide Reaches, KEY_A, Shape;
    run, w := WrittenFile(hash, c1);
    ReachedShape(hash, run, w, 0);
    var labels := OperationRuns(hash, run, w, 0, 1, Chown(7), Lost, Works);
    run, w := run + labels, Operated(hash, w, 0, 1, Chown(7), Lost, Works);
  }

  /** It writes c2, and a Flush stores the blob but loses the metadata, so that it restores the key of c1. */
  lemma WrongKey(hash: bytes -> bytes, c1: bytes, c2: bytes) returns (run: seq<Label>, w: World)
    requires hash(c1) != hash(c2)
    ensures Reaches(hash, run, w) && |run| <= 14 && w.clients.Keys == {0} && Free(w.clients[0], 1)
    ensures var a := w.clients[0].nodes[1].a;
      a.key == KEY_A && a.version == 1 && a.contentKey == hash(c1) && !a.saveContent
    ensures hash(c1) !in w.shared.blobs && VersionOf(w.shared.store, KEY_A) == 1
  {
    hide Reaches, KEY_A, Shape;
    KeysDiffer();
    run, w := LostBlob(hash, c1);
    run, w := OneStep(hash, run, w, Write(0, 1, c2, 2, true));
    ReachedShape(hash, run, w, 0);
    var labels := OperationRuns(hash, run, w, 0, 1, Flush, Works, Lost);
    run, w := run + labels, Operated(hash, w, 0, 1, Flush, Works, Lost);
  }

  /** A stored content key that leads nowhere, for any two contents with different hashes: one blob put and
      one metadata put are lost, and the next change of the file stores the key of the lost blob. */
  lemma DanglingContentKey(hash: bytes -> bytes, c1: bytes, c2: bytes) returns (run: seq<Label>, w: World)
    requires hash(c1) != hash(c2) && hash(c1) != []
    ensures Reaches(hash, run, w) && KEY_A in w.shared.store
    ensures w.shared.store[KEY_A].value.contentKey == hash(c1) && !Resolves(hash(c1), w.shared.blobs)
  {
    hide Reaches, KEY_A;
    run, w := WrongKey(hash, c1, c2);
    run, w := KeysGetStored(hash, run, w, 0, 1);
  }
}
