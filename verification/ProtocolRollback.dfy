/** A failed operation leaves its node as it found it, whatever happened in between. */
module ProtocolRollback {
  import opened Types
  import opened NodeCodec
  import opened Storage
  import opened NodeSpec
  import opened Protocol
  import opened ProtocolInv
  import opened ProtocolOps
  import opened ProtocolSyncs
  import opened ProtocolBegins
  import opened ProtocolLoads
  import opened ProtocolNews
  import opened ProtocolRuns
  import opened ProtocolContent

  /** The node is back to what it was, as far as its failed operation takes it back: all of its links,
      attributes and its version; its content, unless a Flush gives it up; its content key after a
      Flush (KeyLeft is for the others); its time, unless it was the clock that a change of size has set. */
  predicate IsRestored(n: Node, was: Node, undo: Undo) {
    && n.children == was.children && n.a.xattrs == was.a.xattrs && n.a.version == was.a.version
    && n.a.user == was.a.user && n.a.group == was.a.group && n.a.mode == was.a.mode
    && (undo.Unflush? ==> n.a.contentKey == was.a.contentKey)
    && (!undo.Unflush? ==> n.a.content == was.a.content)
    && (!(undo.Attributes? && undo.change.size && undo.change.mtime == None) ==> n.a.nanos == was.a.nanos)
  }

  /** The operation could still be taken back. Rename cannot. */
  predicate Revocable(n: Node, undo: Undo, was: Node) {
    undo != Nothing ==> IsRestored(UndoneNode(n, undo), was, undo)
  }

  /** There was content to be stored when the operation came to the sync of its node. */
  predicate HadContent(undo: Undo, was: Node) {
    was.a.saveContent || (undo.Attributes? && undo.change.size)
  }

  /** The content half of the sync of the operation's own node is done. */
  predicate OwnHalfDone(q: NodeId, th: Thread) {
    th.todo != [] && th.todo[0] == q && th.blobDone
  }

  /** The content key is the one that the operation found, until the content half replaces it; a Flush does
      not touch the content before it fails. */
  predicate Tracked(hash: bytes -> bytes, q: NodeId, n: Node, th: Thread, was: Node) {
    th.undo != Nothing ==> (
      && (th.undo.Unflush? ==> n.a.content == was.a.content && th.undo.contentKey == was.a.contentKey)
      && if OwnHalfDone(q, th) then n.a.contentKey == if HadContent(th.undo, was) then hash(n.a.content) else was.a.contentKey
         else n.a.contentKey == was.a.contentKey && n.a.saveContent == HadContent(th.undo, was))
  }

  ghost predicate AllRevocable(hash: bytes -> bytes, c: Client) {
    forall q :: q in c.threads ==> q in c.nodes && q in c.found && RevocableAt(hash, q, c.nodes[q], c.threads[q], c.found[q])
  }

  predicate RevocableAt(hash: bytes -> bytes, q: NodeId, n: Node, th: Thread, was: Node) {
    Revocable(n, th.undo, was) && Tracked(hash, q, n, th, was)
  }

  /** Nothing changes that a roll-back would have to restore. */
  predicate Frozen(n: Node, n': Node) {
    && n'.children == n.children
    && n'.a == n.a.(key := n'.a.key, reloadMetadata := n'.a.reloadMetadata, contentKey := n'.a.contentKey,
         saveContent := n'.a.saveContent, saveMetadata := n'.a.saveMetadata)
  }

  lemma FrozenRevocable(n: Node, n': Node, undo: Undo, was: Node)
    requires Revocable(n, undo, was) && Frozen(n, n')
    ensures Revocable(n', undo, was)
  {
  }

  /** The content key and the flag stay, until the node's own content half is done. */
  predicate KeyKept(hash: bytes -> bytes, q: NodeId, n: Node, th: Thread, n': Node, th': Thread) {
    if OwnHalfDone(q, th') && !OwnHalfDone(q, th) then
      n'.a.contentKey == if n.a.saveContent then hash(n.a.content) else n.a.contentKey
    else n'.a.contentKey == n.a.contentKey && n'.a.saveContent == n.a.saveContent && (OwnHalfDone(q, th') <==> OwnHalfDone(q, th))
  }

  lemma KeptIsTracked(hash: bytes -> bytes, q: NodeId, n: Node, th: Thread, n': Node, th': Thread, was: Node)
    requires Tracked(hash, q, n, th, was) && KeyKept(hash, q, n, th, n', th') && th'.undo == th.undo && n'.a.content == n.a.content
    ensures Tracked(hash, q, n', th', was)
  {
  }

  /** The operations in progress are those of before, and their nodes are frozen. */
  ghost predicate Freezes(hash: bytes -> bytes, c: Client, d: Client) {
    d.found == c.found && forall q :: q in d.threads ==> FrozenAt(hash, c, d, q)
  }

  predicate FrozenAt(hash: bytes -> bytes, c: Client, d: Client, q: NodeId) {
    && q in c.threads && q in d.threads && d.threads[q].undo == c.threads[q].undo && q in c.nodes && q in d.nodes
    && (c.threads[q].undo == Nothing
        || (Frozen(c.nodes[q], d.nodes[q]) && KeyKept(hash, q, c.nodes[q], c.threads[q], d.nodes[q], d.threads[q])))
  }

  lemma FrozenRefl(n: Node)
    ensures Frozen(n, n)
  {
  }

  lemma FreezesKeeps(hash: bytes -> bytes, c: Client, d: Client)
    requires AllRevocable(hash, c) && Freezes(hash, c, d)
    ensures AllRevocable(hash, d)
  {
    hide Frozen, RevocableAt, KeyKept;
    forall q | q in d.threads ensures q in d.nodes && q in d.found && RevocableAt(hash, q, d.nodes[q], d.threads[q], d.found[q]) {
      FrozenAtKeeps(hash, c, d, q);
    }
  }

  lemma FrozenAtKeeps(hash: bytes -> bytes, c: Client, d: Client, q: NodeId)
    requires FrozenAt(hash, c, d, q) && q in c.found && RevocableAt(hash, q, c.nodes[q], c.threads[q], c.found[q])
    ensures q in d.nodes && q in c.threads && RevocableAt(hash, q, d.nodes[q], d.threads[q], c.found[q])
  {
    hide Revocable, KeyKept, Tracked;
    if c.threads[q].undo == Nothing {
      NothingRevocable(d.nodes[q], c.found[q]);
      NothingTracked(hash, q, d.nodes[q], d.threads[q], c.found[q]);
    } else {
      FrozenRevocable(c.nodes[q], d.nodes[q], c.threads[q].undo, c.found[q]);
      KeptIsTracked(hash, q, c.nodes[q], c.threads[q], d.nodes[q], d.threads[q], c.found[q]);
    }
  }

  lemma NothingTracked(hash: bytes -> bytes, q: NodeId, n: Node, th: Thread, was: Node)
    requires th.undo == Nothing
    ensures Tracked(hash, q, n, th, was)
  {
  }

  lemma NothingRevocable(n: Node, was: Node)
    ensures Revocable(n, Nothing, was)
  {
  }

  // ----- Beginnings -----

  /** What begins can be taken back: for Create, Mkdir and Symlink, because the name is new. */
  lemma BeginIsRevocable(c: Client, store: map<bytes, Entry<Record>>, p: NodeId, op: Op)
    requires CanBegin(c, store, p, op)
    ensures var d := Begin(c, store, p, op);
      p in d.threads && p in d.nodes && Revocable(d.nodes[p], d.threads[p].undo, c.nodes[p])
  {
    hide BeginCreate, BeginRename, Chmod;
    match op
    case Create(name, kind, child, key, mode, now, target) =>
      BeginCreateIs(c, p, name, kind, child, key, NewChild(kind, key, mode, now, target));
      CreateIsRevocable(c, Begin(c, store, p, op), p, name, child);
    case Rename(name, to, newName) =>
      BeginRenameIs(c, p, name, to, newName);
    case Setxattr(attr, value) => SetxattrIsRevocable(c.nodes[p], attr, value);
    case Rmdir(name) => RemoveIsRevocable(c.nodes[p], name);
    case Unlink(name) => RemoveIsRevocable(c.nodes[p], name);
    case _ =>
  }

  lemma CreateIsRevocable(c: Client, d: Client, p: NodeId, name: bytes, child: NodeId)
    requires Creates(c, d, p, name, child)
    ensures p in d.threads && p in d.nodes && Revocable(d.nodes[p], d.threads[p].undo, c.nodes[p])
  {
    assert c.nodes[p].children[name := child] - {name} == c.nodes[p].children;
  }

  lemma SetxattrIsRevocable(n: Node, attr: bytes, value: bytes)
    ensures var was := if attr in n.a.xattrs then Some(n.a.xattrs[attr]) else None;
      Unset(n.a.xattrs[attr := value], attr, was) == n.a.xattrs
  {
  }

  lemma RemoveIsRevocable(n: Node, name: bytes)
    ensures name in n.children ==> (n.children - {name})[name := n.children[name]] == n.children
    ensures name !in n.children ==> n.children - {name} == n.children
  {
  }

  /** A beginning operation leaves the nodes of the others alone. */
  lemma BeginFreezes(c: Client, store: map<bytes, Entry<Record>>, p: NodeId, op: Op, q: NodeId)
    requires CanBegin(c, store, p, op) && Shape(c) && q in Begin(c, store, p, op).threads && q != p
    ensures var d := Begin(c, store, p, op);
      q in c.threads && d.threads[q] == c.threads[q] && q in c.nodes && q in d.nodes && d.nodes[q] == c.nodes[q]
  {
    hide Holds, BeginCreate, BeginRename, Changed;
    match op
    case Create(name, kind, child, key, mode, now, target) =>
      BeginCreateIs(c, p, name, kind, child, key, NewChild(kind, key, mode, now, target));
    case Rename(name, to, newName) =>
      BeginRenameIs(c, p, name, to, newName);
    case _ =>
  }

  lemma BeginFound(c: Client, store: map<bytes, Entry<Record>>, p: NodeId, op: Op)
    requires CanBegin(c, store, p, op)
    ensures Begin(c, store, p, op).found == c.found
  {
  }

  /** The content key is that of the node as it was found. */
  lemma BeginIsTracked(hash: bytes -> bytes, c: Client, store: map<bytes, Entry<Record>>, p: NodeId, op: Op)
    requires CanBegin(c, store, p, op)
    ensures var d := Begin(c, store, p, op);
      p in d.threads && p in d.nodes && Tracked(hash, p, d.nodes[p], d.threads[p], c.nodes[p])
  {
    hide BeginCreate, BeginRename, Chmod;
    match op
    case Create(name, kind, child, key, mode, now, target) =>
      BeginCreateIs(c, p, name, kind, child, key, NewChild(kind, key, mode, now, target));
    case Rename(name, to, newName) =>
      BeginRenameIs(c, p, name, to, newName);
    case _ =>
  }

  lemma StartKeepsRevocable(hash: bytes -> bytes, c: Client, store: map<bytes, Entry<Record>>, p: NodeId, op: Op)
    requires CanBegin(c, store, p, op) && Shape(c) && AllRevocable(hash, c)
    ensures AllRevocable(hash, Remember(Begin(c, store, p, op), p, c.nodes[p]))
  {
    hide Revocable, Tracked, Shape, Begin;
    var d := Begin(c, store, p, op);
    BeginIsRevocable(c, store, p, op);
    BeginIsTracked(hash, c, store, p, op);
    BeginFound(c, store, p, op);
    forall q | q in d.threads && q != p ensures q in d.nodes && q in c.found && RevocableAt(hash, q, d.nodes[q], d.threads[q], c.found[q]) {
      BeginFreezes(c, store, p, op, q);
    }
  }

  // ----- Syncs -----

  lemma AbortFreezes(hash: bytes -> bytes, c: Client, p: NodeId)
    requires p in c.threads && p in c.nodes && forall q :: q in c.threads ==> q in c.nodes
    ensures Freezes(hash, c, Abort(c, p)) && Abort(c, p).threads.Keys == c.threads.Keys - {p}
  {
    hide UndoneNode;
  }

  /** Only its own operation syncs a node that another operation is in progress on. */
  lemma OnlyOwn(c: Client, p: NodeId, m: NodeId)
    requires Shape(c) && m in c.locks && c.locks[m] == p && m in c.threads
    ensures m == p
  {
    hide Holds;
  }

  lemma FreezesAfterAttrs(hash: bytes -> bytes, c: Client, m: NodeId, a: Attrs, d: Client)
    requires m in c.nodes && Freezes(hash, WithAttrs(c, m, a), d) && m !in d.threads
    ensures Freezes(hash, c, d)
  {
    hide Frozen, KeyKept;
  }

  lemma BlobDoneFreezes(hash: bytes -> bytes, c: Client, p: NodeId, a: Attrs)
    requires Shape(c) && p in c.threads && c.threads[p].todo != [] && c.threads[p].todo[0] in c.nodes
    requires var m := c.threads[p].todo[0];
      && m in c.locks && c.locks[m] == p && Frozen(c.nodes[m], c.nodes[m].(a := a))
      && (OwnHalfDone(p, c.threads[p]) || a.contentKey == if c.nodes[m].a.saveContent then hash(c.nodes[m].a.content) else c.nodes[m].a.contentKey)
    requires !c.threads[p].blobDone
    ensures Freezes(hash, c, BlobDone(c, p, a))
  {
    hide Holds, Frozen;
    forall n ensures Frozen(n, n) { FrozenRefl(n); }
  }

  lemma BlobFreezes(hash: bytes -> bytes, c: Client, p: NodeId, fault: Fault, blobs: map<bytes, bytes>)
    requires CanSync(c, p, false) && Shape(c)
    requires var m := c.threads[p].todo[0]; m in c.locks && c.locks[m] == p
    ensures Freezes(hash, c, BlobStep(hash, c, blobs, p, fault).0)
  {
    hide Abort, Holds, Freezes, Frozen;
    var m := c.threads[p].todo[0];
    assert m in c.threads[p].todo;
    var (a, _, ok) := SyncContent(c.nodes[m].a, hash, blobs, fault);
    BlobFailureFreezes(c.nodes[m], hash, blobs, fault);
    if ok {
      BlobDoneFreezes(hash, c, p, a);
    } else {
      AbortFreezes(hash, WithAttrs(c, m, a), p);
      if m in c.threads { OnlyOwn(c, p, m); }
      FreezesAfterAttrs(hash, c, m, a, Abort(WithAttrs(c, m, a), p));
    }
  }

  lemma AdvanceFreezes(hash: bytes -> bytes, c: Client, p: NodeId, n: Node)
    requires Shape(c) && p in c.threads && c.threads[p].todo != [] && forall m :: m in c.threads[p].todo ==> m in c.nodes
    requires var m := c.threads[p].todo[0]; m in c.nodes && m in c.locks && c.locks[m] == p
    requires c.threads[p].todo[0] == p ==> |c.threads[p].todo| == 1 || c.threads[p].undo == Nothing
    ensures Freezes(hash, c, Advance(WithNode(c, c.threads[p].todo[0], n), p))
  {
    hide Holds, FrozenAt, Advance;
    var d := Advance(WithNode(c, c.threads[p].todo[0], n), p);
    AdvanceFound(c, p, n);
    forall q | q in d.threads ensures FrozenAt(hash, c, d, q) { AdvanceFreezesAt(hash, c, p, n, q); }
  }

  lemma AdvanceFound(c: Client, p: NodeId, n: Node)
    requires p in c.threads && c.threads[p].todo != [] && forall m :: m in c.threads[p].todo ==> m in c.nodes
    requires c.threads[p].todo[0] in c.nodes
    ensures Advance(WithNode(c, c.threads[p].todo[0], n), p).found == c.found
  {
  }

  lemma AdvanceFreezesAt(hash: bytes -> bytes, c: Client, p: NodeId, n: Node, q: NodeId)
    requires Shape(c) && p in c.threads && c.threads[p].todo != [] && forall m :: m in c.threads[p].todo ==> m in c.nodes
    requires var m := c.threads[p].todo[0]; m in c.nodes && m in c.locks && c.locks[m] == p
    requires c.threads[p].todo[0] == p ==> |c.threads[p].todo| == 1 || c.threads[p].undo == Nothing
    requires q in Advance(WithNode(c, c.threads[p].todo[0], n), p).threads
    ensures FrozenAt(hash, c, Advance(WithNode(c, c.threads[p].todo[0], n), p), q)
  {
    hide Holds;
    assert q in c.threads && c.locks[q] == q;
  }

  lemma MetaFreezes(hash: bytes -> bytes, c: Client, p: NodeId, fault: Fault, sh: Shared, count: nat)
    requires ClientOk(c, sh, count) && CanSync(c, p, true)
    ensures Freezes(hash, c, MetaStep(c, sh.store, p, fault))
  {
    hide ClientOk, Abort, Advance, LinksOf, Freezes, UndoOk, NodeOk, Links;
    OwnNext(c, p, sh, count);
    AllThreadsOnNodes(c, sh, count);
    var m := c.threads[p].todo[0];
    var (a, _, ok) := SyncMetadata(c.nodes[m].a, RecordOf(c.nodes[m].a, LinksOf(c.nodes, c.nodes[m].children)), sh.store, fault);
    if ok {
      if m == p { OwnIsLast(c, p, sh, count); }
      AdvanceFreezes(hash, c, p, Saved(c.nodes[m], a));
    } else {
      AbortFreezes(hash, WithAttrs(c, m, a), p);
      if m in c.threads { OnlyOwn(c, p, m); }
      FreezesAfterAttrs(hash, c, m, a, Abort(WithAttrs(c, m, a), p));
    }
  }

  lemma AllThreadsOnNodes(c: Client, sh: Shared, count: nat)
    requires ClientOk(c, sh, count)
    ensures Shape(c) && forall q :: q in c.threads ==> q in c.nodes
  {
  }

  // ----- Loads -----

  lemma LoadFreezes(hash: bytes -> bytes, c: Client, id: NodeId, arr: Arrivals, store: map<bytes, Entry<Record>>)
    requires CanLoad(c, store, id, arr) && id !in c.threads && Shape(c)
    ensures Freezes(hash, c, LoadInto(c, id, store[c.nodes[id].a.key], arr))
  {
    hide Arrive, Holds, Newborn, LoadInto, FrozenAt, Frozen;
    var e := store[c.nodes[id].a.key];
    var d := LoadInto(c, id, e, arr);
    LoadFound(c, id, e, arr);
    LoadIntoIs(c, id, e, arr);
    forall q | q in d.threads ensures FrozenAt(hash, c, d, q) { LoadFreezesAt(hash, c, d, id, e, arr, q); }
  }

  lemma LoadFound(c: Client, id: NodeId, e: Entry<Record>, arr: Arrivals)
    requires id in c.nodes && Arrive(c, e.value.children, arr)
    ensures LoadInto(c, id, e, arr).found == c.found && ReloadStep(c, id, e, arr).found == c.found
  {
  }

  lemma LoadFreezesAt(hash: bytes -> bytes, c: Client, d: Client, id: NodeId, e: Entry<Record>, arr: Arrivals, q: NodeId)
    requires Loads(c, d, id, e, arr) && id !in c.threads && Shape(c) && q in d.threads
    ensures FrozenAt(hash, c, d, q)
  {
    hide Holds, Frozen;
    FrozenRefl(c.nodes[q]);
  }

  lemma ReloadFreezes(hash: bytes -> bytes, c: Client, id: NodeId, arr: Arrivals, store: map<bytes, Entry<Record>>)
    requires CanLoad(c, store, id, arr) && id !in c.threads && Shape(c)
    ensures Freezes(hash, c, ReloadStep(c, id, store[c.nodes[id].a.key], arr))
  {
    hide Arrive, Holds, Newborn, ReloadStep, FrozenAt, Frozen;
    var e := store[c.nodes[id].a.key];
    var d := ReloadStep(c, id, e, arr);
    LoadFound(c, id, e, arr);
    ReloadStepIs(c, id, e, arr);
    forall q | q in d.threads ensures FrozenAt(hash, c, d, q) { ReloadFreezesAt(hash, c, d, id, e, arr, q); }
  }

  lemma ReloadFreezesAt(hash: bytes -> bytes, c: Client, d: Client, id: NodeId, e: Entry<Record>, arr: Arrivals, q: NodeId)
    requires Reloads(c, d, id, e, arr) && id !in c.threads && Shape(c) && q in d.threads
    ensures FrozenAt(hash, c, d, q)
  {
    hide Holds, Reconciled;
    ReconciledKeeps(c.nodes[q], q, c.nodes[id].children, e.value.children);
  }

  // ----- Worlds -----

  ghost predicate WorldRevocable(hash: bytes -> bytes, w: World) {
    forall cid :: cid in w.clients ==> AllRevocable(hash, w.clients[cid])
  }

  lemma MoverRevocable(hash: bytes -> bytes, w: World, l: Label, count: nat)
    requires WorldOk(w, count) && WorldRevocable(hash, w) && Enabled(w, l)
    ensures AllRevocable(hash, Moved(hash, w, l))
  {
    hide ClientOk, Informed, SharedOk, AllRevocable, BlobStep, LoadInto, ReloadStep, Begin, MetaStep, Freezes, Shape;
    var sh := w.shared;
    if !l.Mount? {
      assert MemberOk(Mover(l), w.clients[Mover(l)], sh, count);
      AllThreadsOnNodes(w.clients[Mover(l)], sh, count);
    }
    match l
    case Mount(_, arr) => MountRevocable(hash, w, l.cid, arr);
    case Start(cid, p, op) => StartKeepsRevocable(hash, w.clients[cid], sh.store, p, op);
    case SyncBlob(cid, p, fault) =>
      OwnNext(w.clients[cid], p, sh, count);
      BlobFreezes(hash, w.clients[cid], p, fault, sh.blobs);
      FreezesKeeps(hash, w.clients[cid], Moved(hash, w, l));
    case SyncMeta(cid, p, fault) =>
      MetaFreezes(hash, w.clients[cid], p, fault, sh, count);
      FreezesKeeps(hash, w.clients[cid], Moved(hash, w, l));
    case Reload(cid, id, arr) =>
      ShapeLocks(w.clients[cid], id);
      ReloadFreezes(hash, w.clients[cid], id, arr, sh.store);
      FreezesKeeps(hash, w.clients[cid], Moved(hash, w, l));
    case LoadChild(cid, id, name, arr) =>
      UnloadedChild(w.clients[cid], id, name, sh, count);
      LoadFreezes(hash, w.clients[cid], w.clients[cid].nodes[id].children[name], arr, sh.store);
      FreezesKeeps(hash, w.clients[cid], Moved(hash, w, l));
    case Write(cid, id, content, now, dirty) =>
      ShapeLocks(w.clients[cid], id);
      WriteFreezes(hash, w.clients[cid], id, w.clients[cid].nodes[id].a.(content := content, nanos := now,
        saveContent := w.clients[cid].nodes[id].a.saveContent || dirty));
      FreezesKeeps(hash, w.clients[cid], Moved(hash, w, l));
    case Deliver(cast) =>
      InvalidateFreezes(hash, w.clients[cast.to], cast.key, cast.version);
      FreezesKeeps(hash, w.clients[cast.to], Moved(hash, w, l));
  }

  lemma WriteFreezes(hash: bytes -> bytes, c: Client, id: NodeId, a: Attrs)
    requires id in c.nodes && id !in c.threads && Shape(c)
    ensures Freezes(hash, c, WithAttrs(c, id, a))
  {
    hide Holds;
  }

  lemma InvalidateFreezes(hash: bytes -> bytes, c: Client, key: bytes, version: uint64)
    requires Shape(c)
    ensures Freezes(hash, c, Invalidate(c, key, version))
  {
    hide Holds;
  }

  lemma MountRevocable(hash: bytes -> bytes, w: World, cid: ClientId, arr: Arrivals)
    requires ROOT_KEY in w.shared.store ==> CanLoad(NewClient(), w.shared.store, ROOT, arr)
    ensures AllRevocable(hash, if ROOT_KEY in w.shared.store then LoadInto(NewClient(), ROOT, w.shared.store[ROOT_KEY], arr) else NewClient())
  {
    hide Newborn, Arrive;
  }

  lemma {:induction false} ReachableRevocable(hash: bytes -> bytes, run: seq<Label>)
    requires |run| <= MAX_UINT64 as int
    ensures Exec(hash, run).Some? ==> WorldRevocable(hash, Exec(hash, run).value)
    decreases |run|
  {
    hide WorldOk, AllRevocable, Moved, Spread, Enabled;
    if run != [] {
      var less := run[..|run| - 1];
      ReachableRevocable(hash, less);
      ReachableOk(hash, less);
      match Exec(hash, less)
      case None =>
      case Some(w) =>
        if Enabled(w, run[|run| - 1]) { MoverRevocable(hash, w, run[|run| - 1], |less|); }
    }
  }

  // ----- The theorem -----

  /** The step is a put, of a blob or of metadata, that reports a failure to its operation. */
  ghost predicate Fails(hash: bytes -> bytes, w: World, l: Label)
    requires Enabled(w, l)
  {
    match l
    case SyncBlob(cid, p, fault) =>
      var c := w.clients[cid];
      assert c.threads[p].todo[0] in c.threads[p].todo;
      !SyncContent(c.nodes[c.threads[p].todo[0]].a, hash, w.shared.blobs, fault).2
    case SyncMeta(cid, p, fault) =>
      var c := w.clients[cid];
      assert c.threads[p].todo[0] in c.threads[p].todo;
      var n := c.nodes[c.threads[p].todo[0]];
      !SyncMetadata(n.a, RecordOf(n.a, LinksOf(c.nodes, n.children)), w.shared.store, fault).2
    case _ => false
  }

  /** The content key that a failed operation leaves behind: after a Flush the one that it found; after any
      other operation that had content to be stored and came as far as the sync of its own node the hash
      of the content that it tried to store, whichever of the two halves has failed. */
  predicate KeyLeft(hash: bytes -> bytes, n: Node, was: Node, undo: Undo, tried: bytes, synced: bool) {
    n.a.contentKey == if !undo.Unflush? && synced && HadContent(undo, was) then hash(tried) else was.a.contentKey
  }

  /** The content that a failed Flush leaves behind: it is given up if and only if there was content to be
      stored that the old key does not stand for. */
  predicate ContentLeft(hash: bytes -> bytes, n: Node, was: Node, undo: Undo) {
    undo.Unflush? ==>
      n.a.content == if was.a.saveContent && hash(was.a.content) != was.a.contentKey then [] else was.a.content
  }

  lemma FailureAborts(c: Client, p: NodeId, m: NodeId, a: Attrs)
    requires p in c.threads && p in c.nodes && p in c.found && Revocable(c.nodes[p], c.threads[p].undo, c.found[p])
    requires m in c.nodes && Frozen(c.nodes[m], c.nodes[m].(a := a)) && c.threads[p].undo != Nothing
    ensures var d := Abort(WithAttrs(c, m, a), p);
      p !in d.threads && p in d.nodes && IsRestored(d.nodes[p], c.found[p], c.threads[p].undo)
  {
    hide IsRestored, UndoneNode;
    var n := WithAttrs(c, m, a).nodes[p];
    assert Frozen(c.nodes[p], n);
    FrozenRevocable(c.nodes[p], n, c.threads[p].undo, c.found[p]);
  }

  lemma FailureLeavesKey(hash: bytes -> bytes, c: Client, p: NodeId, m: NodeId, a: Attrs)
    requires p in c.threads && p in c.nodes && p in c.found && RevocableAt(hash, p, c.nodes[p], c.threads[p], c.found[p])
    requires m in c.nodes && c.threads[p].todo != [] && c.threads[p].todo[0] == m && c.threads[p].undo != Nothing
    requires c.nodes[m].(a := a) == c.nodes[m].(a := c.nodes[m].a.(contentKey := a.contentKey, reloadMetadata := a.reloadMetadata))
    requires a.contentKey == if !c.threads[p].blobDone && c.nodes[m].a.saveContent then hash(c.nodes[m].a.content) else c.nodes[m].a.contentKey
    requires c.threads[p].undo.Unflush? ==> m == p
    ensures var (d, th) := (Abort(WithAttrs(c, m, a), p), c.threads[p]);
      && p in d.nodes && KeyLeft(hash, d.nodes[p], c.found[p], th.undo, c.nodes[p].a.content, th.todo[0] == p)
      && ContentLeft(hash, d.nodes[p], c.found[p], th.undo)
  {
    var n := WithAttrs(c, m, a).nodes[p];
    UndoneKey(n, c.threads[p].undo, c.nodes[p], c.found[p]);
  }

  lemma UndoneKey(n: Node, undo: Undo, before: Node, was: Node)
    requires Revocable(before, undo, was) && undo != Nothing
    ensures UndoneNode(n, undo).a.contentKey == if undo.Unflush? then was.a.contentKey else n.a.contentKey
  {
  }

  /** Whatever happened while the operation was in progress, and at whichever of its puts it fails:
      its node is as the operation found it, but for the content key and for the content that a Flush gives
      up, and these are known too. Only Rename has no way back. */
  lemma FailedOperationsAreUndone(hash: bytes -> bytes, run: seq<Label>, w: World, l: Label)
    requires Reaches(hash, run, w) && Enabled(w, l) && Fails(hash, w, l) && w.clients[l.cid].threads[l.p].undo != Nothing
    ensures var (c, d) := (w.clients[l.cid], Moved(hash, w, l));
      && l.p !in d.threads && l.p in d.nodes && l.p in c.found && l.p in c.nodes
      && IsRestored(d.nodes[l.p], c.found[l.p], c.threads[l.p].undo)
      && KeyLeft(hash, d.nodes[l.p], c.found[l.p], c.threads[l.p].undo, c.nodes[l.p].a.content, c.threads[l.p].todo[0] == l.p)
      && ContentLeft(hash, d.nodes[l.p], c.found[l.p], c.threads[l.p].undo)
  {
    hide Exec, Reaches, Abort, Advance, IsRestored, Frozen, Tracked, Revocable, KeyLeft, ContentLeft, WorldOk;
    ReachesByExec(hash, run, w);
    ReachableOk(hash, run);
    SyncFacts(hash, w, l.cid, l.p, l.SyncMeta?, |run|);
    ReachableRevocable(hash, run);
    var c := w.clients[l.cid];
    var m := c.threads[l.p].todo[0];
    assert m in c.threads[l.p].todo;
    assert AllRevocable(hash, c);
    if l.SyncBlob? {
      var (a, _, _) := SyncContent(c.nodes[m].a, hash, w.shared.blobs, l.fault);
      BlobFailureFreezes(c.nodes[m], hash, w.shared.blobs, l.fault);
      FailureAborts(c, l.p, m, a);
      FailureLeavesKey(hash, c, l.p, m, a);
    } else {
      var record := RecordOf(c.nodes[m].a, LinksOf(c.nodes, c.nodes[m].children));
      var (a, _, _) := SyncMetadata(c.nodes[m].a, record, w.shared.store, l.fault);
      MetaFailureFreezes(c.nodes[m], record, w.shared.store, l.fault);
      FailureAborts(c, l.p, m, a);
      FailureLeavesKey(hash, c, l.p, m, a);
    }
  }

  lemma BlobFailureFreezes(n: Node, hash: bytes -> bytes, blobs: map<bytes, bytes>, fault: Fault)
    ensures Frozen(n, n.(a := SyncContent(n.a, hash, blobs, fault).0))
  {
  }

  lemma MetaFailureFreezes(n: Node, record: Record, store: map<bytes, Entry<Record>>, fault: Fault)
    ensures !SyncMetadata(n.a, record, store, fault).2 ==> Frozen(n, n.(a := SyncMetadata(n.a, record, store, fault).0))
  {
  }

  // ----- When a roll-back is exact -----

  /** A Setattr with fields a whose sync between e and e2 fails leaves every field but these as it was. The
      time comes back if and only if it asked for a time, left the size alone, or the clock still showed
      the old time; the content key if and only if there was no content to be stored, or the hash is the
      old key. The node counts as dirty; its content does so only if the blob store has failed; and it is
      flagged for a reload if the put was stale. */
  lemma UnchangedIsExact(a: Attrs, change: Change, resized: bytes, now: int64, links: map<bytes, Key>, hash: bytes -> bytes,
      e: Env, mid: Attrs, e2: Env)
    requires Syncs(Changed(a, change, resized, now), links, hash, e, mid, e2, EIO)
    ensures var (b, dirty, stored) := (Unchanged(mid, change, a), a.saveContent || change.size, Head(e.blobFaults) == Works);
      && b == a.(nanos := b.nanos, contentKey := b.contentKey, saveMetadata := true, saveContent := b.saveContent, reloadMetadata := b.reloadMetadata)
      && (b.nanos == a.nanos <==> change.mtime.Some? || !change.size || now == a.nanos)
      && (b.contentKey == a.contentKey <==> !dirty || hash(Changed(a, change, resized, now).content) == a.contentKey)
      && (b.saveContent <==> dirty && !stored)
      && (b.reloadMetadata <==> a.reloadMetadata || ((dirty ==> stored) && Head(e.metaFaults) == Works))
  {
    hide IsImage;
    var c := Changed(a, change, resized, now);
    var (b, blobs, ok) := SyncContent(c, hash, e.blobs, Head(e.blobFaults));
    if ok {
      var e1 := e.(blobs := blobs, blobFaults := if c.saveContent then Tail(e.blobFaults) else e.blobFaults);
      var image :| IsImage(image, RecordOf(b, links)) && Saves(b, image, e1, mid, e2, EIO);
    }
  }

  /** What the next sync that works stores: if there was content and the blob store had taken it, the key of
      the content that was refused, although the node has its old content back. */
  lemma RefusedContentIsStored(a: Attrs, change: Change, resized: bytes, now: int64, links: map<bytes, Key>, hash: bytes -> bytes,
      e: Env, mid: Attrs, e2: Env, links2: map<bytes, Key>, e3: Env, a3: Attrs, e4: Env)
    requires Syncs(Changed(a, change, resized, now), links, hash, e, mid, e2, EIO)
    requires Syncs(Unchanged(mid, change, a), links2, hash, e3, a3, e4, OK)
    ensures var (refused, dirty, stored) := (Changed(a, change, resized, now).content, a.saveContent || change.size, Head(e.blobFaults) == Works);
      && a3.content == a.content
      && a3.contentKey == (if !dirty then a.contentKey else if stored then hash(refused) else hash(a.content))
      && (dirty ==> (a3.contentKey == hash(a3.content) <==> !stored || hash(refused) == hash(a.content)))
    ensures a.key in e4.meta && e4.meta[a.key].version == a3.version && IsImage(e4.meta[a.key].value, RecordOf(a3, links2))
  {
    hide IsImage;
    UnchangedIsExact(a, change, resized, now, links, hash, e, mid, e2);
    var b := Unchanged(mid, change, a);
    MidKey(a, change, resized, now, links, hash, e, mid, e2);
    SavedIsThere(b, links2, hash, e3, a3, e4);
  }

  lemma MidKey(a: Attrs, change: Change, resized: bytes, now: int64, links: map<bytes, Key>, hash: bytes -> bytes, e: Env, mid: Attrs, e2: Env)
    requires Syncs(Changed(a, change, resized, now), links, hash, e, mid, e2, EIO)
    ensures mid.contentKey == if a.saveContent || change.size then hash(Changed(a, change, resized, now).content) else a.contentKey
  {
    hide IsImage;
    var c := Changed(a, change, resized, now);
    var (b, blobs, ok) := SyncContent(c, hash, e.blobs, Head(e.blobFaults));
    if ok {
      var e1 := e.(blobs := blobs, blobFaults := if c.saveContent then Tail(e.blobFaults) else e.blobFaults);
      var image :| IsImage(image, RecordOf(b, links)) && Saves(b, image, e1, mid, e2, EIO);
    }
  }

  /** Such an input: an empty file that was never saved is to become one byte long, the blob is stored, the
      metadata put is lost, and the next sync, which works, stores the one byte for a file that is empty. */
  lemma RefusedSize(hash: bytes -> bytes) returns (a: Attrs, change: Change, e: Env, mid: Attrs, e2: Env, a3: Attrs, e4: Env)
    ensures Syncs(Changed(a, change, [0], 1), map[], hash, e, mid, e2, EIO) && change.size
    ensures Syncs(Unchanged(mid, change, a), map[], hash, e2, a3, e4, OK)
    ensures a.content == [] && a3.content == [] && a3.contentKey == hash([0])
    ensures a.key in e4.meta && exists r :: IsImage(e4.meta[a.key].value, r) && r.contentKey == hash([0])
  {
    hide IsImage;
    a, change := Created(Zeros(NODE_KEY_LEN), 0x81a4, 0), Change(None, None, None, None, true);
    e := Env(map[], map[], [], [Lost]);
    var c := Changed(a, change, [0], 1);
    var (b, blobs, _) := SyncContent(c, hash, map[], Works);
    mid, e2 := b, Env(blobs, map[], [], []);
    var image := AnyImage(RecordOf(b, map[]));
    assert Saves(b, image, e.(blobs := blobs), mid, e2, EIO);
    var d := Unchanged(mid, change, a);
    var image2 := AnyImage(RecordOf(d, map[]));
    a3, e4 := d.(version := 1, saveMetadata := false), e2.(meta := map[a.key := Entry(1, image2)]);
    assert Saves(d, image2, e2, a3, e4, OK);
    assert IsImage(e4.meta[a.key].value, RecordOf(d, map[])) && RecordOf(d, map[]).contentKey == hash([0]);
  }
}
