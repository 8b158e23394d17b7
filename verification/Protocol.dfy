/** Many clients, one metadata store: the steps by which the nodes of pkg/node reach the stores, as a
    state machine. A client's goroutines interleave between the puts of one operation, every pending
    broadcast arrives at any later time, and every put may fail. The choices of the environment are
    in the labels, so a run is a sequence of labels. See README.md for what a step abstracts from. */
module Protocol {
  import opened Types
  import opened NodeCodec
  import opened Storage
  import opened NodeSpec

  type ClientId = nat
  type NodeId = nat

  /** Every client's root node, and the key of the root directory. */
  const ROOT: NodeId := 0
  const ROOT_KEY: Key := Zeros(NODE_KEY_LEN)

  /** The key and the version that an object was last loaded from or saved as. */
  datatype Origin = Origin(key: Key, version: uint64)

  /** A CryptNode object. A reload of its parent can give it another key while it keeps its version and
      its fields, and with them its origin. */
  datatype Node = Node(a: Attrs, children: map<bytes, NodeId>, origin: Origin)

  /** How an operation whose sync fails is taken back; it concerns the node that the operation was
      called on. */
  datatype Undo =
    | Nothing
    | Xattr(attr: bytes, was: Option<bytes>)
    | Relink(name: bytes, child: NodeId)
    | Uncreate(name: bytes)
    | Attributes(change: Change, before: Attrs)
    | Unflush(contentKey: bytes)

  /** An operation in progress: the nodes that it has yet to sync, and whether the content half of
      the first sync is done. */
  datatype Thread = Thread(todo: seq<NodeId>, blobDone: bool, undo: Undo)

  /** locks maps each locked node to the node whose operation holds the lock; threads maps a node to
      the operation in progress on it, of which its own lock allows one; found remembers what the
      node was like when the operation began. */
  datatype Client = Client(
    nodes: map<NodeId, Node>,
    known: map<bytes, NodeId>,
    locks: map<NodeId, NodeId>,
    threads: map<NodeId, Thread>,
    found: map<NodeId, Node>)

  /** A broadcast on its way to one client. */
  datatype Cast = Cast(to: ClientId, key: bytes, version: uint64)

  /** What is remembered of an accepted put: what was stored, by which object of which client, whether
      the client heard of it, which version it replaced, and what its object had been loaded from or
      saved as before. */
  datatype Put = Put(record: Record, client: ClientId, node: NodeId, acked: bool, replaced: uint64, origin: Origin)

  /** The metadata store with its history, the blob store, and the broadcasts still to be delivered. */
  datatype Shared = Shared(
    store: map<bytes, Entry<Record>>,
    blobs: map<bytes, bytes>,
    log: map<(bytes, uint64), Put>,
    pending: multiset<Cast>)

  datatype World = World(clients: map<ClientId, Client>, shared: Shared)

  // ----- Clients -----

  /** The root counts as loaded: an empty file system gets a root that has never been stored. */
  predicate IsLoaded(id: NodeId, n: Node) {
    id == ROOT || n.a.mode != MODE_NOT_LOADED
  }

  function KeyAt(nodes: map<NodeId, Node>, id: NodeId): Key {
    if id in nodes then nodes[id].a.key else ROOT_KEY
  }

  /** The names and keys under which a directory is stored. */
  function LinksOf(nodes: map<NodeId, Node>, children: map<bytes, NodeId>): map<bytes, Key> {
    map name | name in children :: KeyAt(nodes, children[name])
  }

  /** A node that an operation can be called on. */
  predicate Free(c: Client, id: NodeId) {
    id in c.nodes && id !in c.locks && IsLoaded(id, c.nodes[id])
  }

  function WithNode(c: Client, id: NodeId, n: Node): Client {
    c.(nodes := c.nodes[id := n])
  }

  function WithAttrs(c: Client, id: NodeId, a: Attrs): Client
    requires id in c.nodes
  {
    c.(nodes := c.nodes[id := c.nodes[id].(a := a)])
  }

  function WithChildren(c: Client, id: NodeId, children: map<bytes, NodeId>): Client
    requires id in c.nodes
  {
    c.(nodes := c.nodes[id := c.nodes[id].(children := children)])
  }

  function Mark(c: Client, id: NodeId): Client
    requires id in c.nodes
  {
    WithAttrs(c, id, c.nodes[id].a.(saveMetadata := true))
  }

  function Open(c: Client, p: NodeId, locked: set<NodeId>, todo: seq<NodeId>, undo: Undo): Client {
    c.(locks := map x | x in c.locks.Keys + locked :: if x in locked then p else c.locks[x],
       threads := c.threads[p := Thread(todo, false, undo)])
  }

  function Close(c: Client, p: NodeId): Client {
    c.(locks := map x | x in c.locks && c.locks[x] != p :: c.locks[x], threads := c.threads - {p})
  }

  // ----- The operations, up to their first sync -----

  datatype Kind = File | Directory | Link

  datatype Op =
    | Setxattr(attr: bytes, value: bytes)
    | Setattr(change: Change, resized: bytes, now: int64)
    | Flush
    | Rmdir(name: bytes)
    | Unlink(name: bytes)
    | Create(name: bytes, kind: Kind, child: NodeId, key: Key, mode: uint16, now: int64, target: bytes)
    | Rename(name: bytes, to: NodeId, newName: bytes)

  /** The operation gets its locks and does not return early. A created name is new in its directory
      and its random key new to everyone; a renamed child is one that the kernel has looked up. */
  predicate CanBegin(c: Client, store: map<bytes, Entry<Record>>, p: NodeId, op: Op) {
    && Free(c, p)
    && match op
       case Setxattr(_, _) => true
       case Setattr(_, _, _) => true
       case Flush => true
       case Rmdir(name) =>
         && name in c.nodes[p].children
         && var x := c.nodes[p].children[name];
            x in c.nodes && x !in c.locks && c.nodes[x].children == map[]
       case Unlink(_) => true
       case Create(name, _, child, key, _, _, _) =>
         name !in c.nodes[p].children && child !in c.nodes && key !in store && key != ROOT_KEY
       case Rename(name, to, _) =>
         && name in c.nodes[p].children
         && var x := c.nodes[p].children[name];
            Free(c, x) && Free(c, to) && x != to && x != p
  }

  /** The mode of a new node: the bit of its kind is set; a link does not get any other bits. */
  function ModeOf(kind: Kind, mode: uint16): uint32 {
    match kind
    case File => WithBit(mode, S_IFREG)
    case Directory => WithBit(mode, S_IFDIR)
    case Link => S_IFLNK
  }

  function NewChild(kind: Kind, key: Key, mode: uint16, now: int64, target: bytes): Node {
    var a := Created(key, ModeOf(kind, mode), now).(saveMetadata := true);
    Node(if kind == Link then a.(saveContent := true, content := target) else a, map[], Origin(key, 0))
  }

  /** addKnown keeps the object that it knows already. */
  function AddKnown(known: map<bytes, NodeId>, key: Key, id: NodeId): map<bytes, NodeId> {
    if key in known then known else known[key := id]
  }

  function Begin(c: Client, store: map<bytes, Entry<Record>>, p: NodeId, op: Op): Client
    requires CanBegin(c, store, p, op)
  {
    var n := c.nodes[p];
    match op
    case Setxattr(attr, value) =>
      var was := if attr in n.a.xattrs then Some(n.a.xattrs[attr]) else None;
      Open(WithAttrs(c, p, n.a.(xattrs := n.a.xattrs[attr := value], saveMetadata := true)), p, {p}, [p], Xattr(attr, was))
    case Setattr(change, resized, now) =>
      Open(WithAttrs(c, p, Changed(n.a, change, resized, now)), p, {p}, [p], Attributes(change, n.a))
    case Flush =>
      Open(c, p, {p}, [p], Unflush(n.a.contentKey))
    case Rmdir(name) =>
      Open(Mark(WithChildren(c, p, n.children - {name}), p), p, {p, n.children[name]}, [p], Relink(name, n.children[name]))
    case Unlink(name) =>
      Open(Mark(WithChildren(c, p, n.children - {name}), p), p, {p}, [p],
        if name in n.children then Relink(name, n.children[name]) else Nothing)
    case Create(name, kind, child, key, mode, now, target) =>
      BeginCreate(c, p, name, kind, child, key, NewChild(kind, key, mode, now, target))
    case Rename(name, to, newName) =>
      BeginRename(c, p, name, to, newName)
  }

  function Remember(c: Client, p: NodeId, n: Node): Client {
    c.(found := c.found[p := n])
  }

  /** Mkdir and Symlink mark the directory as dirty right away, Create only later. */
  function BeginCreate(c: Client, p: NodeId, name: bytes, kind: Kind, child: NodeId, key: Key, n: Node): Client
    requires p in c.nodes && child !in c.nodes
  {
    var d := WithChildren(c, p, c.nodes[p].children[name := child]);
    var e := if kind == File then d else Mark(d, p);
    Open(e.(nodes := e.nodes[child := n], known := AddKnown(c.known, key, child)), p, {p, child}, [child, p], Uncreate(name))
  }

  function BeginRename(c: Client, p: NodeId, name: bytes, to: NodeId, newName: bytes): Client
    requires p in c.nodes && to in c.nodes && name in c.nodes[p].children && c.nodes[p].children[name] in c.nodes
  {
    var x := c.nodes[p].children[name];
    var d := WithChildren(c, to, c.nodes[to].children[newName := x]);
    var e := WithChildren(d, p, d.nodes[p].children - {name});
    Open(Mark(Mark(Mark(e, x), to), p), p, {p, x, to}, [x, to, p], Nothing)
  }

  // ----- The syncs of an operation -----

  function UndoneNode(n: Node, undo: Undo): Node {
    match undo
    case Nothing => n
    case Xattr(attr, was) => n.(a := n.a.(xattrs := Unset(n.a.xattrs, attr, was)))
    case Relink(name, child) => n.(children := n.children[name := child])
    case Uncreate(name) => n.(children := n.children - {name})
    case Attributes(change, before) => n.(a := Unchanged(n.a, change, before))
    case Unflush(contentKey) => n.(a := Unflushed(n.a, contentKey))
  }

  function Abort(c: Client, p: NodeId): Client
    requires p in c.threads && p in c.nodes
  {
    Close(c.(nodes := c.nodes[p := UndoneNode(c.nodes[p], c.threads[p].undo)]), p)
  }

  /** The first node is synced. Create marks its directory as dirty only now. */
  function Advance(c: Client, p: NodeId): Client
    requires p in c.threads && c.threads[p].todo != []
    requires forall m :: m in c.threads[p].todo ==> m in c.nodes
  {
    var th := c.threads[p];
    if |th.todo| == 1 then Close(c, p) else
      assert th.todo[1] in th.todo;
      var d := if th.undo.Uncreate? then Mark(c, th.todo[1]) else c;
      d.(threads := d.threads[p := Thread(th.todo[1..], false, th.undo)])
  }

  predicate CanSync(c: Client, p: NodeId, blobDone: bool) {
    && p in c.threads && p in c.nodes && c.threads[p].todo != []
    && (forall m :: m in c.threads[p].todo ==> m in c.nodes)
    && c.threads[p].blobDone == blobDone
  }

  /** The content half of the sync of the first node. */
  function BlobStep(hash: bytes -> bytes, c: Client, blobs: map<bytes, bytes>, p: NodeId, fault: Fault): (Client, map<bytes, bytes>)
    requires CanSync(c, p, false)
  {
    var th := c.threads[p];
    var m := th.todo[0];
    var (a, stored, ok) := SyncContent(c.nodes[m].a, hash, blobs, fault);
    var d := WithAttrs(c, m, a);
    (if ok then d.(threads := d.threads[p := th.(blobDone := true)]) else Abort(d, p), stored)
  }

  function VersionOf(store: map<bytes, Entry<Record>>, key: bytes): uint64 {
    if key in store then store[key].version else 0
  }

  /** The put of a dirty node reaches the store and is accepted. */
  predicate Lands(a: Attrs, record: Record, store: map<bytes, Entry<Record>>, fault: Fault) {
    a.saveMetadata && fault != Lost && PutVersion(store, Next(a.version), a.key, record).Some?
  }

  /** The store and its history after a put by object m of client cid, and the broadcasts to all the
      other clients, if it lands. */
  ghost function Landed(clients: set<ClientId>, sh: Shared, cid: ClientId, m: NodeId, n: Node, record: Record, fault: Fault): Shared {
    if !Lands(n.a, record, sh.store, fault) then sh else
      var v := Next(n.a.version);
      sh.(store := sh.store[n.a.key := Entry(v, record)],
          log := sh.log[(n.a.key, v) := Put(record, cid, m, fault == Works, VersionOf(sh.store, n.a.key), n.origin)],
          pending := sh.pending + multiset(set d | d in clients && d != cid :: Cast(d, n.a.key, v)))
  }

  /** An object whose metadata half has worked; if there was something to save, it has a new origin. */
  function Saved(n: Node, a: Attrs): Node {
    n.(a := a, origin := if n.a.saveMetadata then Origin(n.a.key, a.version) else n.origin)
  }

  /** The metadata half of the sync of the first node. */
  function MetaStep(c: Client, store: map<bytes, Entry<Record>>, p: NodeId, fault: Fault): Client
    requires CanSync(c, p, true)
  {
    var m := c.threads[p].todo[0];
    var n := c.nodes[m];
    var (a, _, ok) := SyncMetadata(n.a, RecordOf(n.a, LinksOf(c.nodes, n.children)), store, fault);
    if ok then Advance(WithNode(c, m, Saved(n, a)), p) else Abort(WithAttrs(c, m, a), p)
  }

  // ----- Loading -----

  /** The objects that ExistingNode makes for the children of a record, and the known map after it,
      which depends on the order in which the children come. */
  datatype Arrivals = Arrivals(ids: map<bytes, NodeId>, known: map<bytes, NodeId>)

  ghost predicate Arrive(c: Client, children: map<bytes, Key>, arr: Arrivals) {
    && arr.ids.Keys == children.Keys
    && (forall name :: name in arr.ids ==> arr.ids[name] !in c.nodes)
    && (forall x, y :: x in arr.ids && y in arr.ids && arr.ids[x] == arr.ids[y] ==> x == y)
    && (forall k :: k in c.known ==> k in arr.known && arr.known[k] == c.known[k])
    && (forall name :: name in children ==> children[name] in arr.known)
    && (forall k :: k in arr.known && k !in c.known ==>
          exists name :: name in children && children[name] == k && arr.known[k] == arr.ids[name])
  }

  /** The name that id has in children, if any. */
  ghost function NameOf(children: map<bytes, NodeId>, id: NodeId): (r: Option<bytes>)
    ensures r.Some? ==> r.value in children && children[r.value] == id
    ensures r.None? ==> forall name :: name in children ==> children[name] != id
  {
    if name :| name in children && children[name] == id then Some(name) else None
  }

  /** What ExistingNode makes. */
  function Unloaded(key: Key): Node {
    Node(Fresh(key), map[], Origin(key, 0))
  }

  ghost function Newborn(children: map<bytes, Key>, ids: map<bytes, NodeId>): map<NodeId, Node>
    requires ids.Keys == children.Keys
  {
    map id | id in ids.Values && NameOf(ids, id).Some? :: Unloaded(children[NameOf(ids, id).value])
  }

  /** The client after object id was filled from the store by LoadMetadata. */
  ghost function LoadInto(c: Client, id: NodeId, e: Entry<Record>, arr: Arrivals): Client
    requires id in c.nodes && Arrive(c, e.value.children, arr)
  {
    var n := c.nodes[id];
    var m := Node(Loaded(n.a, n.a.key, e.version, e.value), arr.ids, Origin(n.a.key, e.version));
    c.(nodes := (c.nodes + Newborn(e.value.children, arr.ids))[id := m], known := arr.known)
  }

  /** A child that survives its parent's reload under another key keeps its version. */
  function Rekey(n: Node, key: Key): Node {
    if n.a.key == key then n else n.(a := n.a.(key := key, reloadMetadata := true))
  }

  /** Each object, as the reload of a node with these children finds or leaves it. */
  ghost function Reconciled(n: Node, id: NodeId, before: map<bytes, NodeId>, children: map<bytes, Key>): Node {
    var name := NameOf(before, id);
    if name.Some? && name.value in children then Rekey(n, children[name.value]) else n
  }

  ghost function Kept(nodes: map<NodeId, Node>, before: map<bytes, NodeId>, children: map<bytes, Key>): map<NodeId, Node> {
    map x | x in nodes :: Reconciled(nodes[x], x, before, children)
  }

  function KeptChildren(before: map<bytes, NodeId>, ids: map<bytes, NodeId>): map<bytes, NodeId> {
    map name | name in ids :: if name in before then before[name] else ids[name]
  }

  ghost function ReloadStep(c: Client, id: NodeId, e: Entry<Record>, arr: Arrivals): Client
    requires id in c.nodes && Arrive(c, e.value.children, arr)
  {
    var n := c.nodes[id];
    var kept := Kept(c.nodes, n.children, e.value.children);
    var m := Node(Reloaded(n.a, e.version, e.value), KeptChildren(n.children, arr.ids), Origin(n.a.key, e.version));
    c.(nodes := (kept + Newborn(e.value.children, arr.ids))[id := m], known := arr.known)
  }

  // ----- Steps -----

  datatype Label =
    | Mount(cid: ClientId, arr: Arrivals)
    | Start(cid: ClientId, p: NodeId, op: Op)
    | SyncBlob(cid: ClientId, p: NodeId, fault: Fault)
    | SyncMeta(cid: ClientId, p: NodeId, fault: Fault)
    | Reload(cid: ClientId, id: NodeId, arr: Arrivals)
    | LoadChild(cid: ClientId, id: NodeId, name: bytes, arr: Arrivals)
    | Write(cid: ClientId, id: NodeId, content: bytes, now: int64, dirty: bool)
    | Deliver(cast: Cast)

  function NewClient(): Client {
    Client(map[ROOT := Unloaded(ROOT_KEY)], map[ROOT_KEY := ROOT], map[], map[], map[])
  }

  /** InvalidateCache. */
  function Invalidate(c: Client, key: bytes, version: uint64): Client {
    if key !in c.known || c.known[key] !in c.nodes then c else
      var id := c.known[key];
      var a := c.nodes[id].a;
      if version <= a.version then c else WithAttrs(c, id, a.(reloadMetadata := true))
  }

  /** Delivery waits for the lock of the node that it concerns. */
  predicate CanDeliver(c: Client, key: bytes) {
    key in c.known ==> c.known[key] !in c.locks
  }

  ghost predicate CanLoad(c: Client, store: map<bytes, Entry<Record>>, id: NodeId, arr: Arrivals) {
    && id in c.nodes && c.nodes[id].a.key in store
    && Arrive(c, store[c.nodes[id].a.key].value.children, arr)
  }

  ghost predicate Enabled(w: World, l: Label) {
    match l
    case Mount(cid, arr) =>
      cid !in w.clients && (ROOT_KEY in w.shared.store ==> CanLoad(NewClient(), w.shared.store, ROOT, arr))
    case Start(cid, p, op) =>
      cid in w.clients && CanBegin(w.clients[cid], w.shared.store, p, op)
    case SyncBlob(cid, p, _) =>
      cid in w.clients && CanSync(w.clients[cid], p, false)
    case SyncMeta(cid, p, _) =>
      cid in w.clients && CanSync(w.clients[cid], p, true)
    case Reload(cid, id, arr) =>
      && cid in w.clients && CanLoad(w.clients[cid], w.shared.store, id, arr)
      && id !in w.clients[cid].locks && w.clients[cid].nodes[id].a.reloadMetadata
    case LoadChild(cid, id, name, arr) =>
      && cid in w.clients
      && var c := w.clients[cid];
         && id in c.nodes && id !in c.locks && name in c.nodes[id].children
         && CanLoad(c, w.shared.store, c.nodes[id].children[name], arr)
         && c.nodes[c.nodes[id].children[name]].a.mode == MODE_NOT_LOADED
    case Write(cid, id, _, _, _) =>
      cid in w.clients && Free(w.clients[cid], id)
    case Deliver(cast) =>
      cast in w.shared.pending && cast.to in w.clients && CanDeliver(w.clients[cast.to], cast.key)
  }

  /** The label's client after the step. */
  ghost function Moved(hash: bytes -> bytes, w: World, l: Label): Client
    requires Enabled(w, l)
  {
    var sh := w.shared;
    match l
    case Mount(_, arr) =>
      if ROOT_KEY in sh.store then LoadInto(NewClient(), ROOT, sh.store[ROOT_KEY], arr) else NewClient()
    case Start(cid, p, op) => Remember(Begin(w.clients[cid], sh.store, p, op), p, w.clients[cid].nodes[p])
    case SyncBlob(cid, p, fault) => BlobStep(hash, w.clients[cid], sh.blobs, p, fault).0
    case SyncMeta(cid, p, fault) => MetaStep(w.clients[cid], sh.store, p, fault)
    case Reload(cid, id, arr) =>
      ReloadStep(w.clients[cid], id, sh.store[w.clients[cid].nodes[id].a.key], arr)
    case LoadChild(cid, id, name, arr) =>
      var x := w.clients[cid].nodes[id].children[name];
      LoadInto(w.clients[cid], x, sh.store[w.clients[cid].nodes[x].a.key], arr)
    case Write(cid, id, content, now, dirty) =>
      var a := w.clients[cid].nodes[id].a;
      WithAttrs(w.clients[cid], id, a.(content := content, nanos := now, saveContent := a.saveContent || dirty))
    case Deliver(cast) => Invalidate(w.clients[cast.to], cast.key, cast.version)
  }

  /** The stores and the broadcasts after the step. */
  ghost function Spread(hash: bytes -> bytes, w: World, l: Label): Shared
    requires Enabled(w, l)
  {
    var sh := w.shared;
    match l
    case SyncBlob(cid, p, fault) => sh.(blobs := BlobStep(hash, w.clients[cid], sh.blobs, p, fault).1)
    case SyncMeta(cid, p, fault) =>
      var c := w.clients[cid];
      var m := c.threads[p].todo[0];
      Landed(w.clients.Keys, sh, cid, m, c.nodes[m], RecordOf(c.nodes[m].a, LinksOf(c.nodes, c.nodes[m].children)), fault)
    case Deliver(cast) => sh.(pending := sh.pending - multiset{cast})
    case _ => sh
  }

  function Mover(l: Label): ClientId {
    if l.Deliver? then l.cast.to else l.cid
  }

  ghost function Step(hash: bytes -> bytes, w: World, l: Label): Option<World> {
    if !Enabled(w, l) then None else
      Some(World(w.clients[Mover(l) := Moved(hash, w, l)], Spread(hash, w, l)))
  }

  /** No client, and empty stores. */
  const NOTHING := World(map[], Shared(map[], map[], map[], multiset{}))

  /** The world after a run from the empty stores, or None if some step was not possible. */
  ghost function Exec(hash: bytes -> bytes, run: seq<Label>): Option<World> {
    if run == [] then Some(NOTHING) else
      match Exec(hash, run[..|run| - 1])
      case None => None
      case Some(w) => Step(hash, w, run[|run| - 1])
  }

  /** The worlds that a run goes through. */
  ghost predicate IsTrace(hash: bytes -> bytes, run: seq<Label>, trace: seq<World>) {
    && |trace| == |run| + 1 && trace[0] == NOTHING
    && forall i :: 0 <= i < |run| ==> Step(hash, trace[i], run[i]) == Some(trace[i + 1])
  }

  /** w is the world after the run, which has too few steps to use up the version numbers. */
  ghost predicate Reaches(hash: bytes -> bytes, run: seq<Label>, w: World) {
    |run| < MAX_UINT64 as int && exists trace :: IsTrace(hash, run, trace) && trace[|run|] == w
  }

  lemma {:induction false} TraceIsExec(hash: bytes -> bytes, run: seq<Label>, trace: seq<World>)
    requires IsTrace(hash, run, trace)
    ensures Exec(hash, run) == Some(trace[|run|])
    decreases |run|
  {
    hide Step;
    if run != [] {
      var n := |run| - 1;
      TraceIsExec(hash, run[..n], trace[..|run|]);
      assert Step(hash, trace[n], run[n]) == Some(trace[n + 1]);
    }
  }

  lemma ReachesByExec(hash: bytes -> bytes, run: seq<Label>, w: World)
    requires Reaches(hash, run, w)
    ensures Exec(hash, run) == Some(w) && |run| < MAX_UINT64 as int
  {
    hide Exec, Step;
    var trace :| IsTrace(hash, run, trace) && trace[|run|] == w;
    TraceIsExec(hash, run, trace);
  }
}
