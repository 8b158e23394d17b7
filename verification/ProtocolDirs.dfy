/** Only directories have children, in the store as in the clients: a record with children that has not
    the mode of a directory makes every client that loads it panic. */
module ProtocolDirs {
  import opened Types
  import opened NodeCodec
  import opened Storage
  import opened NodeSpec
  import opened Protocol
  import opened ProtocolInv
  import opened ProtocolOps
  import opened ProtocolSyncs
  import opened ProtocolBegins
  import opened ProtocolLoads
  import opened ProtocolNews
  import opened ProtocolRuns
  import opened ProtocolContent

  predicate IsDirNode(n: Node) {
    n.children != map[] ==> IsDirectory(n.a.mode)
  }

  /** Taking the operation back keeps that: a child only comes back into a directory. */
  predicate UndoKeepsDir(n: Node, undo: Undo) {
    match undo
    case Relink(_, _) => IsDirectory(n.a.mode)
    case Attributes(_, before) => IsDirectory(before.mode) <==> IsDirectory(n.a.mode)
    case _ => true
  }

  ghost predicate ClientDirs(c: Client) {
    && (forall id :: id in c.nodes ==> IsDirNode(c.nodes[id]))
    && (forall p :: p in c.threads ==> p in c.nodes && UndoKeepsDir(c.nodes[p], c.threads[p].undo))
  }

  ghost predicate StoreDirs(store: map<bytes, Entry<Record>>) {
    forall k :: k in store && store[k].value.children != map[] ==> IsDirectory(store[k].value.mode)
  }

  /** Whatever has children, in a store or in a client, has the mode of a directory. */
  ghost predicate OnlyDirsHaveChildren(w: World) {
    StoreDirs(w.shared.store) && forall cid :: cid in w.clients ==> ClientDirs(w.clients[cid])
  }

  /** If the step begins to put a child somewhere, it does so in a node that has the mode of a directory,
      as the kernel does. */
  ghost predicate InDirectory(w: World, l: Label) {
    l.Start? && Enabled(w, l) ==>
      && (l.op.Create? ==> IsDirectory(w.clients[l.cid].nodes[l.p].a.mode))
      && (l.op.Rename? ==> IsDirectory(w.clients[l.cid].nodes[l.op.to].a.mode))
  }

  // ----- Frames -----

  predicate SameDir(n: Node, n': Node) {
    n'.a.mode == n.a.mode && n'.children == n.children
  }

  /** Every object is as before, or right by itself; every operation in progress was there before, and its
      node has kept its mode. */
  ghost predicate KeepsDirs(c: Client, d: Client) {
    && (forall id :: id in d.nodes ==> (id in c.nodes && SameDir(c.nodes[id], d.nodes[id])) || IsDirNode(d.nodes[id]))
    && (forall q :: q in d.threads ==> KeepsThread(c, d, q))
  }

  predicate KeepsThread(c: Client, d: Client, q: NodeId) {
    && q in c.threads && q in d.threads && d.threads[q].undo == c.threads[q].undo
    && q in c.nodes && q in d.nodes && d.nodes[q].a.mode == c.nodes[q].a.mode
  }

  lemma DirsFrame(c: Client, d: Client)
    requires ClientDirs(c) && KeepsDirs(c, d)
    ensures ClientDirs(d)
  {
    hide IsDirectory;
  }

  // ----- Beginnings -----

  lemma ModeStays(mode: uint32, change: Change)
    ensures IsDirectory(if change.mode.Some? then Chmod(mode, change.mode.value) else mode) <==> IsDirectory(mode)
  {
    hide Chmod;
    if change.mode.Some? {
      var r := Chmod(mode, change.mode.value);
      assert r / 0x4000 == r / 0x1000 / 4 && mode / 0x4000 == mode / 0x1000 / 4;
    }
  }

  lemma BegunDirs(c: Client, p: NodeId, n: Node, locked: set<NodeId>, undo: Undo)
    requires ClientDirs(c) && p in c.nodes && IsDirNode(n) && UndoKeepsDir(n, undo)
    requires forall q :: q in c.threads ==> q != p
    ensures ClientDirs(Begun(c, p, n, locked, undo))
  {
    hide IsDirectory;
  }

  lemma NoThread(c: Client, p: NodeId)
    requires Shape(c) && p !in c.locks
    ensures forall q :: q in c.threads ==> q != p && q in c.locks
  {
    hide Holds;
  }

  lemma BeginDirs(c: Client, store: map<bytes, Entry<Record>>, p: NodeId, op: Op)
    requires ClientDirs(c) && Shape(c) && CanBegin(c, store, p, op)
    requires op.Create? ==> IsDirectory(c.nodes[p].a.mode)
    requires op.Rename? ==> IsDirectory(c.nodes[op.to].a.mode)
    ensures ClientDirs(Begin(c, store, p, op))
  {
    hide ClientDirs, BeginCreate, BeginRename, Changed, Mark, WithChildren, Open, IsDirectory, Shape;
    NoThread(c, p);
    NodeDirs(c, p);
    var n := c.nodes[p];
    match op
    case Setxattr(attr, value) =>
      var was := if attr in n.a.xattrs then Some(n.a.xattrs[attr]) else None;
      BegunDirs(c, p, n.(a := n.a.(xattrs := n.a.xattrs[attr := value], saveMetadata := true)), {p}, Xattr(attr, was));
    case Setattr(change, resized, now) =>
      ChangedFields(n.a, change, resized, now);
      ModeStays(n.a.mode, change);
      BegunDirs(c, p, n.(a := Changed(n.a, change, resized, now)), {p}, Attributes(change, n.a));
    case Flush =>
      assert c.nodes[p := n] == c.nodes;
      BegunDirs(c, p, n, {p}, Unflush(n.a.contentKey));
    case Rmdir(name) => RemoveDirs(c, p, name, {p, n.children[name]}, Relink(name, n.children[name]));
    case Unlink(name) => RemoveDirs(c, p, name, {p}, if name in n.children then Relink(name, n.children[name]) else Nothing);
    case Create(name, kind, child, key, mode, now, target) =>
      var m := NewChild(kind, key, mode, now, target);
      BeginCreateIs(c, p, name, kind, child, key, m);
      CreatedDirs(c, Begin(c, store, p, op), p, name, child);
    case Rename(name, to, newName) =>
      BeginRenameIs(c, p, name, to, newName);
      RenamedDirs(c, Begin(c, store, p, op), p, name, n.children[name], to, newName);
  }

  lemma NodeDirs(c: Client, p: NodeId)
    requires ClientDirs(c) && p in c.nodes
    ensures IsDirNode(c.nodes[p])
  {
  }

  lemma RemoveDirs(c: Client, p: NodeId, name: bytes, locked: set<NodeId>, undo: Undo)
    requires ClientDirs(c) && p in c.nodes && (undo == Nothing || (undo.Relink? && name in c.nodes[p].children))
    requires forall q :: q in c.threads ==> q != p
    ensures ClientDirs(Open(Mark(WithChildren(c, p, c.nodes[p].children - {name}), p), p, locked, [p], undo))
  {
    hide ClientDirs, Mark, WithChildren, IsDirectory;
    NodeDirs(c, p);
    MarkedWithoutChild(c, p, name);
    FewerChildren(c.nodes[p].children, name);
    BegunDirs(c, p, WithoutChild(c.nodes[p], name), locked, undo);
  }

  lemma FewerChildren(children: map<bytes, NodeId>, name: bytes)
    ensures children - {name} != map[] ==> children != map[]
    ensures name in children ==> children != map[]
  {
  }

  lemma CreatedDirs(c: Client, d: Client, p: NodeId, name: bytes, child: NodeId)
    requires ProtocolBegins.Creates(c, d, p, name, child) && ClientDirs(c) && d.nodes[child].children == map[]
    requires IsDirectory(c.nodes[p].a.mode) && forall q :: q in c.threads ==> q != p
    ensures ClientDirs(d)
  {
    hide IsDirectory;
  }

  lemma RenamedDirs(c: Client, d: Client, p: NodeId, name: bytes, x: NodeId, to: NodeId, newName: bytes)
    requires ProtocolBegins.Renames(c, d, p, name, x, to, newName) && ClientDirs(c) && IsDirectory(c.nodes[to].a.mode)
    requires forall q :: q in c.threads ==> q in c.locks
    ensures ClientDirs(d)
  {
    hide IsDirectory;
    FewerChildren(c.nodes[p].children, name);
  }

  // ----- Syncs -----

  lemma AttrsDirs(c: Client, id: NodeId, a: Attrs)
    requires ClientDirs(c) && id in c.nodes && a.mode == c.nodes[id].a.mode
    ensures ClientDirs(WithAttrs(c, id, a))
  {
    hide IsDirectory;
  }

  lemma AbortDirs(c: Client, p: NodeId)
    requires ClientDirs(c) && p in c.threads && p in c.nodes
    ensures ClientDirs(Abort(c, p))
  {
    hide IsDirectory;
    UndoneDir(c.nodes[p], c.threads[p].undo);
  }

  lemma UndoneDir(n: Node, undo: Undo)
    requires IsDirNode(n) && UndoKeepsDir(n, undo)
    ensures IsDirNode(UndoneNode(n, undo))
  {
    hide IsDirectory;
    match undo
    case Uncreate(name) => FewerChildren(n.children, name);
    case _ =>
  }

  lemma BlobDirs(hash: bytes -> bytes, c: Client, p: NodeId, fault: Fault, blobs: map<bytes, bytes>)
    requires ClientDirs(c) && CanSync(c, p, false)
    ensures ClientDirs(BlobStep(hash, c, blobs, p, fault).0)
  {
    hide ClientDirs, Abort;
    var m := c.threads[p].todo[0];
    assert m in c.threads[p].todo;
    var (a, _, ok) := SyncContent(c.nodes[m].a, hash, blobs, fault);
    AttrsDirs(c, m, a);
    if ok { BlobDoneDirs(WithAttrs(c, m, a), p); } else { AbortDirs(WithAttrs(c, m, a), p); }
  }

  lemma BlobDoneDirs(c: Client, p: NodeId)
    requires ClientDirs(c) && p in c.threads
    ensures ClientDirs(c.(threads := c.threads[p := c.threads[p].(blobDone := true)]))
  {
    hide IsDirectory;
  }

  lemma MetaDirs(c: Client, store: map<bytes, Entry<Record>>, p: NodeId, fault: Fault)
    requires ClientDirs(c) && CanSync(c, p, true)
    ensures ClientDirs(MetaStep(c, store, p, fault))
  {
    hide ClientDirs, Abort, Advance, LinksOf;
    var m := c.threads[p].todo[0];
    assert m in c.threads[p].todo;
    var (a, _, ok) := SyncMetadata(c.nodes[m].a, RecordOf(c.nodes[m].a, LinksOf(c.nodes, c.nodes[m].children)), store, fault);
    if ok {
      SavedDirs(c, m, Saved(c.nodes[m], a));
      AdvanceDirs(WithNode(c, m, Saved(c.nodes[m], a)), p);
    } else {
      AttrsDirs(c, m, a);
      AbortDirs(WithAttrs(c, m, a), p);
    }
  }

  lemma SavedDirs(c: Client, id: NodeId, n: Node)
    requires ClientDirs(c) && id in c.nodes && SameDir(c.nodes[id], n)
    ensures ClientDirs(WithNode(c, id, n))
  {
    hide IsDirectory;
  }

  lemma AdvanceDirs(c: Client, p: NodeId)
    requires ClientDirs(c) && p in c.threads && c.threads[p].todo != [] && forall m :: m in c.threads[p].todo ==> m in c.nodes
    ensures ClientDirs(Advance(c, p))
  {
    hide IsDirectory;
  }

  /** What a node stores has children only if the node has. */
  lemma LandedDirs(clients: set<ClientId>, sh: Shared, cid: ClientId, m: NodeId, n: Node, nodes: map<NodeId, Node>, fault: Fault)
    requires StoreDirs(sh.store) && IsDirNode(n)
    ensures StoreDirs(Landed(clients, sh, cid, m, n, RecordOf(n.a, LinksOf(nodes, n.children)), fault).store)
  {
    hide IsDirectory;
    assert LinksOf(nodes, n.children).Keys == n.children.Keys;
  }

  // ----- Loads -----

  lemma LoadDirs(c: Client, id: NodeId, arr: Arrivals, store: map<bytes, Entry<Record>>)
    requires ClientDirs(c) && StoreDirs(store) && CanLoad(c, store, id, arr) && id !in c.threads
    ensures ClientDirs(LoadInto(c, id, store[c.nodes[id].a.key], arr))
  {
    hide Arrive, LoadInto, IsDirectory, IsDirNode, ClientDirs;
    var e := store[c.nodes[id].a.key];
    LoadIntoIs(c, id, e, arr);
    LoadedDirs(c, LoadInto(c, id, e, arr), id, e, arr);
    DirsFrame(c, LoadInto(c, id, e, arr));
  }

  lemma LoadedDirs(c: Client, d: Client, id: NodeId, e: Entry<Record>, arr: Arrivals)
    requires Loads(c, d, id, e, arr) && id !in c.threads && ClientDirs(c)
    requires e.value.children != map[] ==> IsDirectory(e.value.mode)
    ensures KeepsDirs(c, d)
  {
    hide IsDirectory;
    assert arr.ids.Keys == e.value.children.Keys;
    forall x | x in d.nodes && x !in c.nodes ensures IsDirNode(d.nodes[x]) {
      var name :| name in arr.ids && arr.ids[name] == x;
    }
  }

  lemma ReloadDirs(c: Client, id: NodeId, arr: Arrivals, store: map<bytes, Entry<Record>>)
    requires ClientDirs(c) && StoreDirs(store) && CanLoad(c, store, id, arr) && id !in c.threads
    ensures ClientDirs(ReloadStep(c, id, store[c.nodes[id].a.key], arr))
  {
    hide Arrive, ReloadStep, IsDirectory, IsDirNode, ClientDirs;
    var e := store[c.nodes[id].a.key];
    ReloadStepIs(c, id, e, arr);
    ReloadedDirs(c, ReloadStep(c, id, e, arr), id, e, arr);
    DirsFrame(c, ReloadStep(c, id, e, arr));
  }

  lemma ReloadedDirs(c: Client, d: Client, id: NodeId, e: Entry<Record>, arr: Arrivals)
    requires Reloads(c, d, id, e, arr) && id !in c.threads && ClientDirs(c)
    requires e.value.children != map[] ==> IsDirectory(e.value.mode)
    ensures KeepsDirs(c, d)
  {
    hide IsDirectory, Reconciled;
    assert d.nodes[id].children.Keys == e.value.children.Keys;
    forall x | x in d.nodes && x !in c.nodes ensures IsDirNode(d.nodes[x]) {
      var name :| name in arr.ids && arr.ids[name] == x;
    }
    forall x | x in c.nodes ensures SameDir(c.nodes[x], Reconciled(c.nodes[x], x, c.nodes[id].children, e.value.children)) {
      ReconciledKeeps(c.nodes[x], x, c.nodes[id].children, e.value.children);
    }
  }

  // ----- Worlds -----

  lemma SpreadDirs(hash: bytes -> bytes, w: World, l: Label)
    requires OnlyDirsHaveChildren(w) && Enabled(w, l)
    ensures StoreDirs(Spread(hash, w, l).store)
  {
    hide StoreDirs, BlobStep, Landed, LinksOf, IsDirNode;
    match l
    case SyncMeta(cid, p, fault) =>
      var c := w.clients[cid];
      var m := c.threads[p].todo[0];
      assert m in c.threads[p].todo;
      LandedDirs(w.clients.Keys, w.shared, cid, m, c.nodes[m], c.nodes, fault);
    case _ =>
  }

  lemma MovedDirs(hash: bytes -> bytes, w: World, l: Label, count: nat)
    requires WorldOk(w, count) && OnlyDirsHaveChildren(w) && Enabled(w, l) && InDirectory(w, l)
    ensures ClientDirs(Moved(hash, w, l))
  {
    hide ClientOk, Informed, SharedOk, ClientDirs, StoreDirs, BlobStep, MetaStep, LoadInto, ReloadStep, Begin, NewClient, Arrive, Shape, IsDirectory;
    var sh := w.shared;
    if !l.Mount? {
      assert MemberOk(Mover(l), w.clients[Mover(l)], sh, count);
      ShapeOf(w.clients[Mover(l)], sh, count);
    }
    match l
    case Mount(_, arr) =>
      NewClientDirs();
      if ROOT_KEY in sh.store { LoadDirs(NewClient(), ROOT, arr, sh.store); }
    case Start(cid, p, op) =>
      BeginDirs(w.clients[cid], sh.store, p, op);
      RememberDirs(Begin(w.clients[cid], sh.store, p, op), p, w.clients[cid].nodes[p]);
    case SyncBlob(cid, p, fault) => BlobDirs(hash, w.clients[cid], p, fault, sh.blobs);
    case SyncMeta(cid, p, fault) => MetaDirs(w.clients[cid], sh.store, p, fault);
    case Reload(cid, id, arr) =>
      ShapeLocks(w.clients[cid], id);
      ReloadDirs(w.clients[cid], id, arr, sh.store);
    case LoadChild(cid, id, name, arr) =>
      UnloadedChild(w.clients[cid], id, name, sh, count);
      LoadDirs(w.clients[cid], w.clients[cid].nodes[id].children[name], arr, sh.store);
    case Write(cid, id, content, now, dirty) =>
      var a := w.clients[cid].nodes[id].a;
      AttrsDirs(w.clients[cid], id, a.(content := content, nanos := now, saveContent := a.saveContent || dirty));
    case Deliver(cast) =>
      var c := w.clients[cast.to];
      if cast.key in c.known && c.known[cast.key] in c.nodes {
        AttrsDirs(c, c.known[cast.key], c.nodes[c.known[cast.key]].a.(reloadMetadata := true));
      }
  }

  lemma RememberDirs(c: Client, p: NodeId, n: Node)
    requires ClientDirs(c)
    ensures ClientDirs(Remember(c, p, n))
  {
    hide IsDirectory;
  }

  lemma NewClientDirs()
    ensures ClientDirs(NewClient()) && ROOT in NewClient().nodes && NewClient().nodes[ROOT].a.key == ROOT_KEY && NewClient().threads == map[]
  {
  }

  lemma StepDirs(hash: bytes -> bytes, w: World, l: Label, count: nat)
    requires WorldOk(w, count) && OnlyDirsHaveChildren(w) && InDirectory(w, l) && Step(hash, w, l).Some?
    ensures OnlyDirsHaveChildren(Step(hash, w, l).value)
  {
    hide WorldOk, ClientDirs, StoreDirs, Moved, Spread, Enabled, InDirectory;
    SpreadDirs(hash, w, l);
    MovedDirs(hash, w, l, count);
  }

  lemma {:induction false} TraceDirs(hash: bytes -> bytes, run: seq<Label>, trace: seq<World>, n: nat)
    requires IsTrace(hash, run, trace) && |run| < MAX_UINT64 as int && n <= |run|
    requires forall i :: 0 <= i < n ==> InDirectory(trace[i], run[i])
    ensures OnlyDirsHaveChildren(trace[n])
  {
    hide Step, InDirectory, WorldOk;
    if n > 0 {
      TraceDirs(hash, run, trace, n - 1);
      TraceIsOk(hash, run, trace, n - 1);
      assert Step(hash, trace[n - 1], run[n - 1]) == Some(trace[n]);
      StepDirs(hash, trace[n - 1], run[n - 1], n - 1);
    }
  }

  // ----- The theorems -----

  /** All along a run only directories have children, in the store and in every client, if and only if
      every Create, Mkdir, Symlink and Rename puts its child into a node with a directory's mode. Changes of
      the mode, reloads, re-keyed objects and roll-backs never matter. */
  lemma DirectoriesStay(hash: bytes -> bytes, run: seq<Label>, trace: seq<World>)
    requires IsTrace(hash, run, trace) && |run| < MAX_UINT64 as int
    ensures (forall i :: 0 <= i <= |run| ==> OnlyDirsHaveChildren(trace[i])) <==> (forall i :: 0 <= i < |run| ==> InDirectory(trace[i], run[i]))
  {
    hide Step, InDirectory, OnlyDirsHaveChildren;
    if forall i :: 0 <= i < |run| ==> InDirectory(trace[i], run[i]) {
      forall i | 0 <= i <= |run| ensures OnlyDirsHaveChildren(trace[i]) { TraceDirs(hash, run, trace, i); }
    }
    if forall i :: 0 <= i <= |run| ==> OnlyDirsHaveChildren(trace[i]) {
      forall i | 0 <= i < |run| ensures InDirectory(trace[i], run[i]) {
        assert Step(hash, trace[i], run[i]) == Some(trace[i + 1]);
        assert OnlyDirsHaveChildren(trace[i + 1]);
        DirsBefore(hash, trace[i], run[i]);
      }
    }
  }

  lemma CreatedInto(c: Client, d: Client, p: NodeId, name: bytes, child: NodeId)
    requires ProtocolBegins.Creates(c, d, p, name, child)
    ensures p in d.nodes && d.nodes[p].a.mode == c.nodes[p].a.mode && d.nodes[p].children != map[]
  {
    assert name in d.nodes[p].children;
  }

  lemma RenamedInto(c: Client, d: Client, p: NodeId, name: bytes, x: NodeId, to: NodeId, newName: bytes)
    requires ProtocolBegins.Renames(c, d, p, name, x, to, newName)
    ensures d.nodes[to].a.mode == c.nodes[to].a.mode && c.nodes[p].children != map[]
    ensures to != p ==> d.nodes[to].children != map[]
  {
    assert to != p ==> newName in d.nodes[to].children;
  }

  lemma DirsBefore(hash: bytes -> bytes, w: World, l: Label)
    requires OnlyDirsHaveChildren(w) && Step(hash, w, l).Some? && OnlyDirsHaveChildren(Step(hash, w, l).value)
    ensures InDirectory(w, l)
  {
    hide StoreDirs, BeginCreate, BeginRename, IsDirectory, ClientDirs;
    if l.Start? {
      var c, d := w.clients[l.cid], Step(hash, w, l).value.clients[l.cid];
      match l.op
      case Create(name, kind, child, key, mode, now, target) =>
        BeginCreateIs(c, l.p, name, kind, child, key, NewChild(kind, key, mode, now, target));
        CreatedInto(c, Begin(c, w.shared.store, l.p, l.op), l.p, name, child);
        NodeDirs(d, l.p);
      case Rename(name, to, newName) =>
        BeginRenameIs(c, l.p, name, to, newName);
        RenamedInto(c, Begin(c, w.shared.store, l.p, l.op), l.p, name, c.nodes[l.p].children[name], to, newName);
        NodeDirs(c, l.p);
        NodeDirs(d, to);
      case _ =>
    }
  }
}
