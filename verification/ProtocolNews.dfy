/** No step makes a client miss that a node which it knows has changed. */
module ProtocolNews {
  import opened Types
  import opened NodeCodec
  import opened Storage
  import opened NodeSpec
  import opened Protocol
  import opened ProtocolInv
  import opened ProtocolOps
  import opened ProtocolSyncs
  import opened ProtocolBegins
  import opened ProtocolLoads

  /** The node has been filled for this key, has kept it since, and does not know of the newest version. */
  predicate IsBehind(id: NodeId, n: Node, key: bytes, store: map<bytes, Entry<Record>>) {
    && n.a.key == key && IsLoaded(id, n) && !n.a.reloadMetadata
    && key in store && n.a.version < store[key].version
  }

  /** A broadcast of the newest version is on its way to the client, or the client has put that
      version itself: with another object, or without hearing that it was accepted. */
  ghost predicate IsAnnounced(cid: ClientId, id: NodeId, key: bytes, sh: Shared)
    requires key in sh.store
  {
    var v := sh.store[key].version;
    || Cast(cid, key, v) in sh.pending
    || ((key, v) in sh.log && sh.log[(key, v)].client == cid && (sh.log[(key, v)].node != id || !sh.log[(key, v)].acked))
  }

  ghost predicate Informed(cid: ClientId, c: Client, sh: Shared) {
    forall key :: key in c.known && c.known[key] in c.nodes && IsBehind(c.known[key], c.nodes[c.known[key]], key, sh.store) ==>
      IsAnnounced(cid, c.known[key], key, sh)
  }

  /** A node that is behind was behind before. */
  predicate KeepsUp(id: NodeId, n: Node, n': Node) {
    && n'.a.key == n.a.key && n'.a.version == n.a.version
    && (n.a.reloadMetadata ==> n'.a.reloadMetadata) && (IsLoaded(id, n') ==> IsLoaded(id, n))
  }

  /** What a client knows stays the same, or is not behind. */
  ghost predicate StaysInformed(c: Client, d: Client, store: map<bytes, Entry<Record>>) {
    forall key :: key in d.known && d.known[key] in d.nodes && IsBehind(d.known[key], d.nodes[d.known[key]], key, store) ==> (
      && key in c.known && d.known[key] == c.known[key] && c.known[key] in c.nodes
      && KeepsUp(c.known[key], c.nodes[c.known[key]], d.nodes[c.known[key]]))
  }

  lemma InformedStays(cid: ClientId, c: Client, d: Client, sh: Shared)
    requires Informed(cid, c, sh) && StaysInformed(c, d, sh.store)
    ensures Informed(cid, d, sh)
  {
  }

  lemma AllKeepUp(c: Client, d: Client, store: map<bytes, Entry<Record>>)
    requires Shape(c) && d.known == c.known
    requires forall id :: id in c.nodes ==> id in d.nodes && KeepsUp(id, c.nodes[id], d.nodes[id])
    ensures StaysInformed(c, d, store)
  {
    hide Holds;
  }

  // ----- Operations -----

  lemma BegunInformed(c: Client, p: NodeId, n: Node, locked: set<NodeId>, undo: Undo, store: map<bytes, Entry<Record>>)
    requires Shape(c) && p in c.nodes && KeepsUp(p, c.nodes[p], n)
    ensures StaysInformed(c, Begun(c, p, n, locked, undo), store)
  {
    hide KeepsUp, StaysInformed, Shape;
    forall id | id in c.nodes ensures KeepsUp(id, c.nodes[id], c.nodes[id]) { KeepsUpRefl(id, c.nodes[id]); }
    AllKeepUp(c, Begun(c, p, n, locked, undo), store);
  }

  lemma KeepsUpRefl(id: NodeId, n: Node)
    ensures KeepsUp(id, n, n)
  {
  }

  lemma BeginInformed(c: Client, p: NodeId, op: Op, sh: Shared, count: nat)
    requires ClientOk(c, sh, count) && CanBegin(c, sh.store, p, op)
    ensures StaysInformed(c, Begin(c, sh.store, p, op), sh.store)
  {
    hide ClientOk, StaysInformed, BeginCreate, BeginRename, Shape, Changed, Mark, WithChildren, Open;
    NodesOf(c, sh, count);
    var d, n, store := Begin(c, sh.store, p, op), c.nodes[p], sh.store;
    match op
    case Setxattr(attr, value) => SetxattrInformed(c, p, attr, value, store);
    case Setattr(change, resized, now) => SetattrInformed(c, p, change, resized, now, store);
    case Flush => FlushInformed(c, p, store);
    case Rmdir(name) => RemoveInformed(c, p, name, {p, n.children[name]}, Relink(name, n.children[name]), store);
    case Unlink(name) =>
      RemoveInformed(c, p, name, {p}, if name in n.children then Relink(name, n.children[name]) else Nothing, store);
    case Create(name, kind, child, key, mode, now, target) => BeginCreateInformed(c, p, op, store);
    case Rename(name, to, newName) =>
      BeginRenameInformed(c, p, op, store);
  }

  lemma SetxattrInformed(c: Client, p: NodeId, attr: bytes, value: bytes, store: map<bytes, Entry<Record>>)
    requires Shape(c) && CanBegin(c, store, p, Setxattr(attr, value))
    ensures StaysInformed(c, Begin(c, store, p, Setxattr(attr, value)), store)
  {
    hide StaysInformed, Shape;
    var a := c.nodes[p].a;
    var was := if attr in a.xattrs then Some(a.xattrs[attr]) else None;
    BegunInformed(c, p, c.nodes[p].(a := a.(xattrs := a.xattrs[attr := value], saveMetadata := true)), {p}, Xattr(attr, was), store);
  }

  lemma SetattrInformed(c: Client, p: NodeId, change: Change, resized: bytes, now: int64, store: map<bytes, Entry<Record>>)
    requires Shape(c) && CanBegin(c, store, p, Setattr(change, resized, now))
    ensures StaysInformed(c, Begin(c, store, p, Setattr(change, resized, now)), store)
  {
    hide StaysInformed, Shape, Changed;
    var a := c.nodes[p].a;
    ChangedFields(a, change, resized, now);
    BegunInformed(c, p, c.nodes[p].(a := Changed(a, change, resized, now)), {p}, Attributes(change, a), store);
  }

  lemma FlushInformed(c: Client, p: NodeId, store: map<bytes, Entry<Record>>)
    requires Shape(c) && CanBegin(c, store, p, Flush)
    ensures StaysInformed(c, Begin(c, store, p, Flush), store)
  {
    hide StaysInformed, Shape;
    assert c.nodes[p := c.nodes[p]] == c.nodes;
    BegunInformed(c, p, c.nodes[p], {p}, Unflush(c.nodes[p].a.contentKey), store);
  }

  lemma RemoveInformed(c: Client, p: NodeId, name: bytes, locked: set<NodeId>, undo: Undo, store: map<bytes, Entry<Record>>)
    requires Shape(c) && p in c.nodes
    ensures StaysInformed(c, Open(Mark(WithChildren(c, p, c.nodes[p].children - {name}), p), p, locked, [p], undo), store)
  {
    hide StaysInformed, Shape, Mark, WithChildren;
    MarkedWithoutChild(c, p, name);
    BegunInformed(c, p, WithoutChild(c.nodes[p], name), locked, undo, store);
  }

  lemma BeginCreateInformed(c: Client, p: NodeId, op: Op, store: map<bytes, Entry<Record>>)
    requires Shape(c) && CanBegin(c, store, p, op) && op.Create?
    ensures StaysInformed(c, Begin(c, store, p, op), store)
  {
    hide StaysInformed, Shape;
    var n := NewChild(op.kind, op.key, op.mode, op.now, op.target);
    BeginCreateIs(c, p, op.name, op.kind, op.child, op.key, n);
    BeginCreateKnown(c, p, op.name, op.kind, op.child, op.key, n);
    hide BeginCreate, NewChild;
    CreateInformed(c, Begin(c, store, p, op), p, op.name, op.child, op.key, store);
  }

  lemma BeginCreateKnown(c: Client, p: NodeId, name: bytes, kind: Kind, child: NodeId, key: Key, n: Node)
    requires p in c.nodes && child !in c.nodes
    ensures BeginCreate(c, p, name, kind, child, key, n).known == AddKnown(c.known, key, child)
  {
  }

  lemma BeginRenameInformed(c: Client, p: NodeId, op: Op, store: map<bytes, Entry<Record>>)
    requires Shape(c) && CanBegin(c, store, p, op) && op.Rename?
    ensures StaysInformed(c, Begin(c, store, p, op), store)
  {
    hide StaysInformed, Shape, BeginRename, Renames;
    var x := c.nodes[p].children[op.name];
    BeginRenameIs(c, p, op.name, op.to, op.newName);
    RenameInformed(c, Begin(c, store, p, op), p, op.name, x, op.to, op.newName, store);
  }

  lemma CreateInformed(c: Client, d: Client, p: NodeId, name: bytes, child: NodeId, key: Key, store: map<bytes, Entry<Record>>)
    requires Creates(c, d, p, name, child) && Shape(c) && key !in store && d.known == AddKnown(c.known, key, child)
    ensures StaysInformed(c, d, store)
  {
    hide Holds;
  }

  lemma RenameInformed(c: Client, d: Client, p: NodeId, name: bytes, x: NodeId, to: NodeId, newName: bytes, store: map<bytes, Entry<Record>>)
    requires Renames(c, d, p, name, x, to, newName) && Shape(c)
    ensures StaysInformed(c, d, store)
  {
    AllKeepUp(c, d, store);
  }

  lemma AbortKeepsUp(c: Client, p: NodeId)
    requires p in c.threads && p in c.nodes && IsLoaded(p, c.nodes[p])
    ensures var d := Abort(c, p);
      d.known == c.known && forall id :: id in c.nodes ==> id in d.nodes && KeepsUp(id, c.nodes[id], d.nodes[id])
  {
    UndoneFields(c.nodes[p], c.threads[p].undo);
    hide UndoneNode;
  }

  lemma FailKeepsUp(c: Client, p: NodeId, m: NodeId, a: Attrs)
    requires p in c.threads && p in c.nodes && m in c.nodes && IsLoaded(p, c.nodes[p]) && IsLoaded(m, c.nodes[m]) && FailedAttrs(c.nodes[m].a, a)
    ensures var d := Abort(WithAttrs(c, m, a), p);
      d.known == c.known && forall id :: id in c.nodes ==> id in d.nodes && KeepsUp(id, c.nodes[id], d.nodes[id])
  {
    hide Abort;
    AbortKeepsUp(WithAttrs(c, m, a), p);
  }

  lemma BlobDoneInformed(c: Client, p: NodeId, a: Attrs, store: map<bytes, Entry<Record>>)
    requires Shape(c) && p in c.threads && c.threads[p].todo != [] && c.threads[p].todo[0] in c.nodes
    requires FlushedAttrs(c.nodes[c.threads[p].todo[0]].a, a)
    ensures StaysInformed(c, BlobDone(c, p, a), store)
  {
    hide Shape, StaysInformed;
    AllKeepUp(c, BlobDone(c, p, a), store);
  }

  lemma BlobInformed(hash: bytes -> bytes, c: Client, p: NodeId, fault: Fault, sh: Shared, count: nat)
    requires ClientOk(c, sh, count) && CanSync(c, p, false)
    ensures StaysInformed(c, BlobStep(hash, c, sh.blobs, p, fault).0, sh.store)
  {
    hide ClientOk, Abort, PutBlob, StaysInformed, Shape, KeepsUp, UndoOk, NodeOk, Links;
    NodesOf(c, sh, count);
    OwnNext(c, p, sh, count);
    Own(c, p, sh, count);
    var m := c.threads[p].todo[0];
    var (a, _, ok) := SyncContent(c.nodes[m].a, hash, sh.blobs, fault);
    if ok {
      BlobDoneInformed(c, p, a, sh.store);
    } else {
      FailKeepsUp(c, p, m, a);
      AllKeepUp(c, Abort(WithAttrs(c, m, a), p), sh.store);
    }
  }

  // ----- Loads, writes, deliveries -----

  lemma LoadInformed(c: Client, id: NodeId, arr: Arrivals, sh: Shared)
    requires Shape(c) && CanLoad(c, sh.store, id, arr)
    ensures StaysInformed(c, LoadInto(c, id, sh.store[c.nodes[id].a.key], arr), sh.store)
  {
    hide Holds, LoadInto, Arrive;
    var e := sh.store[c.nodes[id].a.key];
    LoadIntoIs(c, id, e, arr);
  }

  lemma ReloadInformed(c: Client, id: NodeId, arr: Arrivals, sh: Shared)
    requires Shape(c) && CanLoad(c, sh.store, id, arr)
    ensures StaysInformed(c, ReloadStep(c, id, sh.store[c.nodes[id].a.key], arr), sh.store)
  {
    hide Holds, ReloadStep, Arrive, Reconciled;
    var e := sh.store[c.nodes[id].a.key];
    ReloadStepIs(c, id, e, arr);
    forall x | x in c.nodes ensures var n := Reconciled(c.nodes[x], x, c.nodes[id].children, e.value.children); n == c.nodes[x] || n.a.reloadMetadata {
      ReconciledKeeps(c.nodes[x], x, c.nodes[id].children, e.value.children);
    }
  }

  /** The delivered broadcast is gone, and the node that it was for is flagged if it is behind. */
  lemma DeliverInformed(cid: ClientId, c: Client, cast: Cast, sh: Shared)
    requires Informed(cid, c, sh) && Shape(c) && cast.to == cid && cast in sh.pending
    ensures Informed(cid, Invalidate(c, cast.key, cast.version), sh.(pending := sh.pending - multiset{cast}))
  {
    hide Holds;
    var d, sh' := Invalidate(c, cast.key, cast.version), sh.(pending := sh.pending - multiset{cast});
    forall key | key in d.known && d.known[key] in d.nodes && IsBehind(d.known[key], d.nodes[d.known[key]], key, sh.store)
      ensures IsAnnounced(cid, d.known[key], key, sh')
    {
      assert IsBehind(c.known[key], c.nodes[c.known[key]], key, sh.store);
      var due := Cast(cid, key, sh.store[key].version);
      if due in sh.pending && due != cast {
        assert due in sh'.pending;
      }
    }
  }

  lemma OthersDeliverInformed(cid: ClientId, c: Client, cast: Cast, sh: Shared)
    requires Informed(cid, c, sh) && cast.to != cid && cast in sh.pending
    ensures Informed(cid, c, sh.(pending := sh.pending - multiset{cast}))
  {
    var sh' := sh.(pending := sh.pending - multiset{cast});
    forall key | key in c.known && c.known[key] in c.nodes && IsBehind(c.known[key], c.nodes[c.known[key]], key, sh.store)
      ensures IsAnnounced(cid, c.known[key], key, sh')
    {
      var due := Cast(cid, key, sh.store[key].version);
      if due in sh.pending {
        assert due in sh'.pending;
      }
    }
  }

  // ----- Puts -----

  /** An accepted put is announced to every other client. */
  lemma OthersPutInformed(clients: set<ClientId>, cid: ClientId, c: Client, sh: Shared, writer: ClientId, m: NodeId, n: Node, record: Record, fault: Fault)
    requires Informed(cid, c, sh) && cid in clients && cid != writer
    ensures Informed(cid, c, Landed(clients, sh, writer, m, n, record, fault))
  {
    var sh' := Landed(clients, sh, writer, m, n, record, fault);
    if Lands(n.a, record, sh.store, fault) {
      forall key | key in c.known && c.known[key] in c.nodes && IsBehind(c.known[key], c.nodes[c.known[key]], key, sh'.store)
        ensures IsAnnounced(cid, c.known[key], key, sh')
      {
        if key != n.a.key {
          assert IsAnnounced(cid, c.known[key], key, sh);
        }
      }
    }
  }

  lemma AdvanceMoves(c: Client, p: NodeId, n: Node)
    requires p in c.threads && c.threads[p].todo != [] && forall m :: m in c.threads[p].todo ==> m in c.nodes
    requires c.threads[p].todo[0] in c.nodes
    ensures var m := c.threads[p].todo[0];
      var d := Advance(WithNode(c, m, n), p);
      && d.known == c.known && d.nodes.Keys == c.nodes.Keys
      && d.nodes[m].a.key == n.a.key && d.nodes[m].a.version == n.a.version && d.nodes[m].a.mode == n.a.mode
      && d.nodes[m].a.reloadMetadata == n.a.reloadMetadata
  {
  }

  lemma AdvanceKeepsUp(c: Client, p: NodeId, n: Node, id: NodeId)
    requires p in c.threads && c.threads[p].todo != [] && forall m :: m in c.threads[p].todo ==> m in c.nodes
    requires c.threads[p].todo[0] in c.nodes && id in c.nodes && id != c.threads[p].todo[0]
    ensures var d := Advance(WithNode(c, c.threads[p].todo[0], n), p);
      id in d.nodes && KeepsUp(id, c.nodes[id], d.nodes[id])
  {
  }

  lemma MetaMoves(c: Client, p: NodeId, fault: Fault, sh: Shared, count: nat)
    requires ClientOk(c, sh, count) && CanSync(c, p, true) && c.threads[p].todo[0] in c.nodes
    ensures var d, m := MetaStep(c, sh.store, p, fault), c.threads[p].todo[0];
      && d.known == c.known
      && (forall id :: id in c.nodes ==> id in d.nodes && (id == m || KeepsUp(id, c.nodes[id], d.nodes[id])))
      && (if Lands(c.nodes[m].a, RecordFor(c, m), sh.store, fault) && fault == Works
          then d.nodes[m].a.key == c.nodes[m].a.key && d.nodes[m].a.version == Next(c.nodes[m].a.version)
          else KeepsUp(m, c.nodes[m], d.nodes[m]))
  {
    hide ClientOk, Abort, Advance, UndoOk, NodeOk, Links, LinksOf;
    OwnNext(c, p, sh, count);
    Own(c, p, sh, count);
    var m := c.threads[p].todo[0];
    var (a, _, ok) := SyncMetadata(c.nodes[m].a, RecordFor(c, m), sh.store, fault);
    if ok {
      var n := Saved(c.nodes[m], a);
      AdvanceMoves(c, p, n);
      forall id | id in c.nodes && id != m ensures KeepsUp(id, c.nodes[id], Advance(WithNode(c, m, n), p).nodes[id]) {
        AdvanceKeepsUp(c, p, n, id);
      }
    } else {
      FailKeepsUp(c, p, m, a);
    }
  }

  /** What a client's own put means for one key that it knows. */
  lemma OwnPutAnnounced(clients: set<ClientId>, cid: ClientId, id: NodeId, old_: Node, new_: Node, key: bytes,
      m: NodeId, n: Node, record: Record, fault: Fault, sh: Shared)
    requires IsBehind(id, old_, key, sh.store) ==> IsAnnounced(cid, id, key, sh)
    requires IsBehind(id, new_, key, Landed(clients, sh, cid, m, n, record, fault).store)
    requires if id == m && Lands(n.a, record, sh.store, fault) && fault == Works
      then new_.a.key == n.a.key && new_.a.version == Next(n.a.version) else KeepsUp(id, old_, new_)
    ensures IsAnnounced(cid, id, key, Landed(clients, sh, cid, m, n, record, fault))
  {
  }

  lemma MetaInformed(clients: set<ClientId>, cid: ClientId, c: Client, p: NodeId, fault: Fault, sh: Shared, count: nat)
    requires ClientOk(c, sh, count) && CanSync(c, p, true) && c.threads[p].todo[0] in c.nodes && Informed(cid, c, sh)
    ensures var m := c.threads[p].todo[0];
      Informed(cid, MetaStep(c, sh.store, p, fault), Landed(clients, sh, cid, m, c.nodes[m], RecordFor(c, m), fault))
  {
    hide ClientOk, MetaStep, RecordFor, Shape, Landed, Lands, KeepsUp, IsBehind, IsAnnounced;
    NodesOf(c, sh, count);
    KnownNodes(c);
    MetaMoves(c, p, fault, sh, count);
    var d, m := MetaStep(c, sh.store, p, fault), c.threads[p].todo[0];
    var n, record := c.nodes[m], RecordFor(c, m);
    var sh' := Landed(clients, sh, cid, m, n, record, fault);
    forall key | key in d.known && d.known[key] in d.nodes && IsBehind(d.known[key], d.nodes[d.known[key]], key, sh'.store)
      ensures key in sh'.store && IsAnnounced(cid, d.known[key], key, sh')
    {
      var id := d.known[key];
      BehindStored(id, d.nodes[id], key, sh'.store);
      if IsBehind(id, c.nodes[id], key, sh.store) { BehindStored(id, c.nodes[id], key, sh.store); }
      OwnPutAnnounced(clients, cid, id, c.nodes[id], d.nodes[id], key, m, n, record, fault, sh);
    }
  }

  lemma BehindStored(id: NodeId, n: Node, key: bytes, store: map<bytes, Entry<Record>>)
    requires IsBehind(id, n, key, store)
    ensures key in store
  {
  }

  lemma KnownNodes(c: Client)
    requires Shape(c)
    ensures forall key :: key in c.known ==> c.known[key] in c.nodes
  {
  }
}
