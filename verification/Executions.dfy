/** Operations that run from their beginning to their end without another step in between. */
module Executions {
  import opened Types
  import opened NodeCodec
  import opened Storage
  import opened NodeSpec
  import opened Protocol
  import opened ProtocolInv
  import opened ProtocolOps
  import opened ProtocolSyncs

  lemma Extend(hash: bytes -> bytes, run: seq<Label>, w: World, l: Label)
    requires Reaches(hash, run, w) && Enabled(w, l) && |run| + 1 < MAX_UINT64 as int
    ensures Reaches(hash, run + [l], Step(hash, w, l).value)
  {
    hide Enabled, Step;
    StepOf(hash, w, l);
    var w' := Step(hash, w, l).value;
    var trace :| IsTrace(hash, run, trace) && trace[|run|] == w;
    var more, longer := trace + [w'], run + [l];
    forall i | 0 <= i < |longer| ensures Step(hash, more[i], longer[i]) == Some(more[i + 1]) {
      if i < |run| { assert Step(hash, trace[i], run[i]) == Some(trace[i + 1]); }
    }
    assert IsTrace(hash, longer, more) && more[|longer|] == w';
  }

  lemma StepOf(hash: bytes -> bytes, w: World, l: Label)
    requires Enabled(w, l)
    ensures Step(hash, w, l) == Some(World(w.clients[Mover(l) := Moved(hash, w, l)], Spread(hash, w, l)))
  {
  }

  function With(w: World, cid: ClientId, c: Client, sh: Shared): World {
    World(w.clients[cid := c], sh)
  }

  // ----- A sync -----

  /** What sync of object m of client cid makes of the object n and of the stores, and whether it works. */
  ghost function SyncOf(hash: bytes -> bytes, clients: set<ClientId>, sh: Shared, cid: ClientId, m: NodeId, n: Node,
      links: map<bytes, Key>, fb: Fault, fm: Fault): (Node, Shared, bool)
  {
    var (b, blobs, ok) := SyncContent(n.a, hash, sh.blobs, fb);
    if !ok then (n.(a := b), sh.(blobs := blobs), false) else
      var (a, _, ok2) := SyncMetadata(b, RecordOf(b, links), sh.store, fm);
      (if ok2 then Saved(n.(a := b), a) else n.(a := a),
       Landed(clients, sh.(blobs := blobs), cid, m, n.(a := b), RecordOf(b, links), fm), ok2)
  }

  /** sync of the first node of the operation on p, both halves at once. */
  ghost function Synced(hash: bytes -> bytes, w: World, cid: ClientId, p: NodeId, fb: Fault, fm: Fault): World
    requires cid in w.clients && CanSync(w.clients[cid], p, false)
  {
    var c := w.clients[cid];
    var m := c.threads[p].todo[0];
    assert m in c.threads[p].todo;
    var (n, sh, ok) := SyncOf(hash, w.clients.Keys, w.shared, cid, m, c.nodes[m], LinksOf(c.nodes, c.nodes[m].children), fb, fm);
    With(w, cid, if ok then Advance(WithNode(c, m, n), p) else Abort(WithNode(c, m, n), p), sh)
  }

  function SyncLabels(hash: bytes -> bytes, w: World, cid: ClientId, p: NodeId, fb: Fault, fm: Fault): seq<Label>
    requires cid in w.clients && CanSync(w.clients[cid], p, false)
  {
    var c := w.clients[cid];
    assert c.threads[p].todo[0] in c.threads[p].todo;
    var ok := SyncContent(c.nodes[c.threads[p].todo[0]].a, hash, w.shared.blobs, fb).2;
    if ok then [SyncBlob(cid, p, fb), SyncMeta(cid, p, fm)] else [SyncBlob(cid, p, fb)]
  }

  /** A sync is a run of its two steps, or of the first if that fails. */
  lemma SyncIsTwoSteps(hash: bytes -> bytes, run: seq<Label>, w: World, cid: ClientId, p: NodeId, fb: Fault, fm: Fault)
    requires Reaches(hash, run, w) && |run| + 2 < MAX_UINT64 as int && cid in w.clients && CanSync(w.clients[cid], p, false)
    ensures Reaches(hash, run + SyncLabels(hash, w, cid, p, fb, fm), Synced(hash, w, cid, p, fb, fm))
  {
    hide Reaches, Abort, Advance, Landed, SyncContent, SyncMetadata, Saved;
    var c := w.clients[cid];
    var m := c.threads[p].todo[0];
    assert m in c.threads[p].todo;
    var (b, blobs, ok) := SyncContent(c.nodes[m].a, hash, w.shared.blobs, fb);
    var l1, l2 := SyncBlob(cid, p, fb), SyncMeta(cid, p, fm);
    Extend(hash, run, w, l1);
    if ok {
      assert Step(hash, w, l1).value == HalfSynced(hash, w, cid, p, fb);
      SyncSecondStep(hash, w, cid, p, fb, fm);
      Extend(hash, run + [l1], HalfSynced(hash, w, cid, p, fb), l2);
      assert run + [l1] + [l2] == run + [l1, l2];
    }
  }

  /** The client after the content half has worked. */
  function HalfSynced(hash: bytes -> bytes, w: World, cid: ClientId, p: NodeId, fb: Fault): World
    requires cid in w.clients && CanSync(w.clients[cid], p, false)
  {
    var c := w.clients[cid];
    assert c.threads[p].todo[0] in c.threads[p].todo;
    var (b, blobs, _) := SyncContent(c.nodes[c.threads[p].todo[0]].a, hash, w.shared.blobs, fb);
    With(w, cid, BlobDone(c, p, b), w.shared.(blobs := blobs))
  }

  lemma HalfSyncedFacts(hash: bytes -> bytes, w: World, cid: ClientId, p: NodeId, fb: Fault)
    requires cid in w.clients && CanSync(w.clients[cid], p, false)
    ensures var c, c1, w1 := w.clients[cid], HalfSynced(hash, w, cid, p, fb).clients[cid], HalfSynced(hash, w, cid, p, fb);
      var m := c.threads[p].todo[0];
      && m in c.nodes && CanSync(c1, p, true) && c1.threads[p].todo == c.threads[p].todo && w1.clients.Keys == w.clients.Keys
      && c1.nodes[m] == c.nodes[m].(a := SyncContent(c.nodes[m].a, hash, w.shared.blobs, fb).0)
      && c1.nodes[m].a.key == c.nodes[m].a.key
      && LinksOf(c1.nodes, c.nodes[m].children) == LinksOf(c.nodes, c.nodes[m].children)
      && w1.shared == w.shared.(blobs := SyncContent(c.nodes[m].a, hash, w.shared.blobs, fb).1)
  {
    hide SyncContent, LinksOf;
    var c := w.clients[cid];
    var m := c.threads[p].todo[0];
    assert m in c.threads[p].todo;
    SyncContentKeeps(c.nodes[m].a, hash, w.shared.blobs, fb);
    SameLinks(c.nodes, HalfSynced(hash, w, cid, p, fb).clients[cid].nodes, c.nodes[m].children);
  }

  lemma SyncSecondStep(hash: bytes -> bytes, w: World, cid: ClientId, p: NodeId, fb: Fault, fm: Fault)
    requires cid in w.clients && CanSync(w.clients[cid], p, false) && w.clients[cid].threads[p].todo[0] in w.clients[cid].nodes
    requires SyncContent(w.clients[cid].nodes[w.clients[cid].threads[p].todo[0]].a, hash, w.shared.blobs, fb).2
    ensures Enabled(HalfSynced(hash, w, cid, p, fb), SyncMeta(cid, p, fm))
    ensures Step(hash, HalfSynced(hash, w, cid, p, fb), SyncMeta(cid, p, fm)) == Some(Synced(hash, w, cid, p, fb, fm))
  {
    hide Landed, SyncContent, SyncMetadata, Abort, Advance, HalfSynced, LinksOf, WithAttrs, WithNode, BlobDone, MetaStep;
    HalfSyncedFacts(hash, w, cid, p, fb);
    SyncSecondMoved(hash, w, cid, p, fb, fm);
    HalfSyncedElse(hash, w, cid, p, fb, Synced(hash, w, cid, p, fb, fm).clients[cid]);
  }

  lemma HalfSyncedElse(hash: bytes -> bytes, w: World, cid: ClientId, p: NodeId, fb: Fault, d: Client)
    requires cid in w.clients && CanSync(w.clients[cid], p, false)
    ensures HalfSynced(hash, w, cid, p, fb).clients[cid := d] == w.clients[cid := d]
  {
    hide SyncContent;
  }

  lemma SyncSecondMoved(hash: bytes -> bytes, w: World, cid: ClientId, p: NodeId, fb: Fault, fm: Fault)
    requires cid in w.clients && CanSync(w.clients[cid], p, false) && w.clients[cid].threads[p].todo[0] in w.clients[cid].nodes
    requires SyncContent(w.clients[cid].nodes[w.clients[cid].threads[p].todo[0]].a, hash, w.shared.blobs, fb).2
    requires CanSync(HalfSynced(hash, w, cid, p, fb).clients[cid], p, true)
    ensures MetaStep(HalfSynced(hash, w, cid, p, fb).clients[cid], w.shared.store, p, fm)
      == Synced(hash, w, cid, p, fb, fm).clients[cid]
  {
    hide Landed, SyncContent, SyncMetadata, Abort, Advance, LinksOf;
    HalfSyncedFacts(hash, w, cid, p, fb);
    var c := w.clients[cid];
    var n := c.nodes[c.threads[p].todo[0]];
    var (b, _, _) := SyncContent(n.a, hash, w.shared.blobs, fb);
    var (a, _, ok) := SyncMetadata(b, RecordOf(b, LinksOf(c.nodes, n.children)), w.shared.store, fm);
    if ok {
      AdvanceForgets(c, p, b, Saved(n.(a := b), a));
    } else {
      AbortForgets(c, p, b, a);
    }
  }

  lemma SameLinks(nodes: map<NodeId, Node>, nodes': map<NodeId, Node>, children: map<bytes, NodeId>)
    requires nodes'.Keys == nodes.Keys && forall id :: id in nodes ==> nodes'[id].a.key == nodes[id].a.key
    ensures LinksOf(nodes', children) == LinksOf(nodes, children)
  {
  }

  /** Whether the content half is done does not matter any more once the sync is over. */
  lemma AdvanceForgets(c: Client, p: NodeId, b: Attrs, n: Node)
    requires CanSync(c, p, false) && c.threads[p].todo[0] in c.nodes
    ensures var m := c.threads[p].todo[0];
      Advance(WithNode(BlobDone(c, p, b), m, n), p) == Advance(WithNode(c, m, n), p)
  {
    var m := c.threads[p].todo[0];
    assert BlobDone(c, p, b).nodes[m := n] == c.nodes[m := n];
    assert BlobDone(c, p, b).threads - {p} == c.threads - {p};
    var rest := Thread(c.threads[p].todo[1..], false, c.threads[p].undo);
    assert BlobDone(c, p, b).threads[p := rest] == c.threads[p := rest];
  }

  lemma AbortForgets(c: Client, p: NodeId, b: Attrs, a: Attrs)
    requires CanSync(c, p, false) && c.threads[p].todo[0] in c.nodes
    ensures var m := c.threads[p].todo[0];
      Abort(WithAttrs(BlobDone(c, p, b), m, a), p) == Abort(WithAttrs(c, m, a), p)
  {
    var m := c.threads[p].todo[0];
    assert BlobDone(c, p, b).nodes[m := c.nodes[m].(a := a)] == c.nodes[m := c.nodes[m].(a := a)];
    assert BlobDone(c, p, b).threads - {p} == c.threads - {p};
  }

  // ----- Operations with a single sync -----

  predicate IsSimple(op: Op) {
    !op.Create? && !op.Rename?
  }

  /** What op makes of the node that it is called on before its sync. */
  function Prepared(c: Client, store: map<bytes, Entry<Record>>, p: NodeId, op: Op): (r: (Node, Undo))
    requires CanBegin(c, store, p, op) && IsSimple(op)
  {
    var n := c.nodes[p];
    match op
    case Setxattr(attr, value) =>
      (n.(a := n.a.(xattrs := n.a.xattrs[attr := value], saveMetadata := true)),
       Xattr(attr, if attr in n.a.xattrs then Some(n.a.xattrs[attr]) else None))
    case Setattr(change, resized, now) => (n.(a := Changed(n.a, change, resized, now)), Attributes(change, n.a))
    case Flush => (n, Unflush(n.a.contentKey))
    case Rmdir(name) => (n.(children := n.children - {name}, a := n.a.(saveMetadata := true)), Relink(name, n.children[name]))
    case Unlink(name) =>
      (n.(children := n.children - {name}, a := n.a.(saveMetadata := true)),
       if name in n.children then Relink(name, n.children[name]) else Nothing)
    case Create(_, _, _, _, _, _, _) => (n, Nothing)
    case Rename(_, _, _) => (n, Nothing)
  }

  function Locked(c: Client, store: map<bytes, Entry<Record>>, p: NodeId, op: Op): set<NodeId>
    requires CanBegin(c, store, p, op)
  {
    if op.Rmdir? then {p, c.nodes[p].children[op.name]} else {p}
  }

  lemma PreparedIsBegun(c: Client, store: map<bytes, Entry<Record>>, p: NodeId, op: Op)
    requires CanBegin(c, store, p, op) && IsSimple(op)
    ensures var (n, undo) := Prepared(c, store, p, op);
      Begin(c, store, p, op) == Begun(c, p, n, Locked(c, store, p, op), undo)
  {
    hide Changed, Open, Mark, WithChildren;
    match op
    case Flush => assert c.nodes[p := c.nodes[p]] == c.nodes;
    case Rmdir(name) => UnlinkedNode(c, p, name);
    case Unlink(name) => UnlinkedNode(c, p, name);
    case _ =>
  }

  lemma UnlinkedNode(c: Client, p: NodeId, name: bytes)
    requires p in c.nodes
    ensures Mark(WithChildren(c, p, c.nodes[p].children - {name}), p)
      == c.(nodes := c.nodes[p := c.nodes[p].(children := c.nodes[p].children - {name}, a := c.nodes[p].a.(saveMetadata := true))])
  {
    assert Mark(WithChildren(c, p, c.nodes[p].children - {name}), p).nodes
      == c.nodes[p := c.nodes[p].(children := c.nodes[p].children - {name}, a := c.nodes[p].a.(saveMetadata := true))];
  }

  /** The node and the stores after the sync of n and, if it fails, the roll-back. */
  ghost function Outcome(hash: bytes -> bytes, w: World, cid: ClientId, p: NodeId, n: Node, links: map<bytes, Key>, undo: Undo,
      fb: Fault, fm: Fault): (Node, Shared)
  {
    var (n', sh, ok) := SyncOf(hash, w.clients.Keys, w.shared, cid, p, n, links, fb, fm);
    (if ok then n' else UndoneNode(n', undo), sh)
  }

  /** The client after such an operation: nothing is left of its locks. */
  function Finished(c: Client, p: NodeId, n: Node): Client
    requires p in c.nodes
  {
    c.(nodes := c.nodes[p := n], found := c.found[p := c.nodes[p]])
  }

  ghost function Operated(hash: bytes -> bytes, w: World, cid: ClientId, p: NodeId, op: Op, fb: Fault, fm: Fault): World
    requires cid in w.clients && CanBegin(w.clients[cid], w.shared.store, p, op) && IsSimple(op)
  {
    var c := w.clients[cid];
    var (n, undo) := Prepared(c, w.shared.store, p, op);
    var (n', sh) := Outcome(hash, w, cid, p, n, LinksOf(c.nodes, n.children), undo, fb, fm);
    With(w, cid, Finished(c, p, n'), sh)
  }

  lemma PreparedFacts(c: Client, store: map<bytes, Entry<Record>>, p: NodeId, op: Op)
    requires CanBegin(c, store, p, op) && IsSimple(op)
    ensures var (n, undo) := Prepared(c, store, p, op);
      n.a.key == c.nodes[p].a.key && !undo.Uncreate? && n.origin == c.nodes[p].origin && p in c.nodes
    ensures p in Locked(c, store, p, op) && forall x :: x in Locked(c, store, p, op) ==> x !in c.locks
  {
  }

  /** The locks and the thread of an operation are gone when it is over, and no other ones. */
  lemma Closes(c: Client, d: Client, p: NodeId, locked: set<NodeId>)
    requires Shape(c) && p !in c.locks && p in locked && forall x :: x in locked ==> x !in c.locks
    requires d.locks == map x | x in c.locks.Keys + locked :: if x in locked then p else c.locks[x]
    requires d.threads - {p} == c.threads - {p}
    ensures Close(d, p) == d.(locks := c.locks, threads := c.threads)
  {
    hide Holds;
    assert p !in c.threads;
    assert c.threads - {p} == c.threads;
    var locks := map x | x in d.locks && d.locks[x] != p :: d.locks[x];
    assert locks.Keys == c.locks.Keys;
    assert locks == c.locks;
  }

  lemma LocksComeAndGo(c: Client, p: NodeId, n: Node, locked: set<NodeId>, undo: Undo, n': Node)
    requires Shape(c) && p in c.nodes && p !in c.locks && p in locked && forall x :: x in locked ==> x !in c.locks
    ensures var d := Remember(Begun(c, p, n, locked, undo), p, c.nodes[p]);
      Close(WithNode(d, p, n'), p) == Finished(c, p, n')
  {
    hide Shape;
    var d := Remember(Begun(c, p, n, locked, undo), p, c.nodes[p]);
    assert d.nodes[p := n'] == c.nodes[p := n'];
    assert d.threads - {p} == c.threads - {p};
    Closes(c, WithNode(d, p, n'), p, locked);
  }

  lemma BegunFacts(c: Client, p: NodeId, n: Node, locked: set<NodeId>, undo: Undo)
    requires p in c.nodes && n.a.key == c.nodes[p].a.key
    ensures var d := Remember(Begun(c, p, n, locked, undo), p, c.nodes[p]);
      && CanSync(d, p, false) && d.threads[p] == Thread([p], false, undo) && d.nodes[p] == n
      && LinksOf(d.nodes, n.children) == LinksOf(c.nodes, n.children)
  {
    SameLinks(c.nodes, Begun(c, p, n, locked, undo).nodes, n.children);
  }

  lemma SyncedIsOperated(hash: bytes -> bytes, w: World, cid: ClientId, p: NodeId, op: Op, fb: Fault, fm: Fault)
    requires cid in w.clients && CanBegin(w.clients[cid], w.shared.store, p, op) && IsSimple(op) && Shape(w.clients[cid])
    ensures var c := w.clients[cid];
      var d := Remember(Begin(c, w.shared.store, p, op), p, c.nodes[p]);
      CanSync(d, p, false) && Synced(hash, With(w, cid, d, w.shared), cid, p, fb, fm) == Operated(hash, w, cid, p, op, fb, fm)
  {
    hide Begun, Begin, Prepared, LinksOf, SyncContent, SyncMetadata, Landed, UndoneNode, Close, Finished, Shape, Locked, CanBegin, Remember;
    var c, sh := w.clients[cid], w.shared;
    var (n, undo) := Prepared(c, sh.store, p, op);
    var locked := Locked(c, sh.store, p, op);
    PreparedIsBegun(c, sh.store, p, op);
    PreparedFacts(c, sh.store, p, op);
    BegunFacts(c, p, n, locked, undo);
    var d := Remember(Begun(c, p, n, locked, undo), p, c.nodes[p]);
    var (n', _) := Outcome(hash, w, cid, p, n, LinksOf(c.nodes, n.children), undo, fb, fm);
    BeginLocks(c, sh.store, p, op);
    LocksComeAndGo(c, p, n, locked, undo, n');
    assert With(w, cid, d, sh).clients.Keys == w.clients.Keys;
    assert With(w, cid, d, sh).clients[cid := Finished(c, p, n')] == w.clients[cid := Finished(c, p, n')];
    var (b, blobs, ok) := SyncContent(n.a, hash, sh.blobs, fb);
    if ok {
      var (a, _, ok2) := SyncMetadata(b, RecordOf(b, LinksOf(c.nodes, n.children)), sh.store, fm);
      if !ok2 { AbortIsClose(d, p, a, undo); }
    } else {
      AbortIsClose(d, p, b, undo);
    }
  }

  lemma BeginLocks(c: Client, store: map<bytes, Entry<Record>>, p: NodeId, op: Op)
    requires CanBegin(c, store, p, op)
    ensures p !in c.locks
  {
  }

  lemma AbortIsClose(d: Client, p: NodeId, a: Attrs, undo: Undo)
    requires p in d.threads && p in d.nodes && d.threads[p].undo == undo
    ensures Abort(WithAttrs(d, p, a), p) == Close(WithNode(d, p, UndoneNode(d.nodes[p].(a := a), undo)), p)
  {
    hide UndoneNode;
    assert WithAttrs(d, p, a).nodes[p := UndoneNode(d.nodes[p].(a := a), undo)] == d.nodes[p := UndoneNode(d.nodes[p].(a := a), undo)];
  }

  /** Such an operation, without interruption, is a run: its beginning and then its sync. */
  lemma OperationRuns(hash: bytes -> bytes, run: seq<Label>, w: World, cid: ClientId, p: NodeId, op: Op, fb: Fault, fm: Fault) returns (labels: seq<Label>)
    requires Reaches(hash, run, w) && |run| + 3 < MAX_UINT64 as int && cid in w.clients && Shape(w.clients[cid])
    requires CanBegin(w.clients[cid], w.shared.store, p, op) && IsSimple(op)
    ensures Reaches(hash, run + labels, Operated(hash, w, cid, p, op, fb, fm)) && 0 < |labels| <= 3
    ensures labels[0] == Start(cid, p, op)
    ensures |labels| > 1 ==> labels[1] == SyncBlob(cid, p, fb)
    ensures |labels| > 2 ==> labels[2] == SyncMeta(cid, p, fm)
  {
    hide Reaches, Begin, CanBegin, Synced, Operated, SyncContent, Shape, Prepared;
    var l := Start(cid, p, op);
    Extend(hash, run, w, l);
    SyncedIsOperated(hash, w, cid, p, op, fb, fm);
    var w1 := Step(hash, w, l).value;
    SyncIsTwoSteps(hash, run + [l], w1, cid, p, fb, fm);
    labels := [l] + SyncLabels(hash, w1, cid, p, fb, fm);
    assert run + [l] + SyncLabels(hash, w1, cid, p, fb, fm) == run + labels;
  }

  // ----- Create, Mkdir and Symlink -----

  /** What these make of their directory before the first sync. */
  function Parented(n: Node, name: bytes, kind: Kind, child: NodeId): Node {
    var d := n.(children := n.children[name := child]);
    if kind == File then d else d.(a := d.a.(saveMetadata := true))
  }

  /** The directory and the child after both syncs, the child's first, and the stores. */
  ghost function CreateOutcome(hash: bytes -> bytes, clients: set<ClientId>, sh: Shared, cid: ClientId, p: NodeId, op: Op, n: Node,
      links: map<bytes, Key>, faults: seq<Fault>): (Node, Node, Shared)
    requires op.Create? && |faults| == 4
  {
    var d, m := Parented(n, op.name, op.kind, op.child), NewChild(op.kind, op.key, op.mode, op.now, op.target);
    var (m1, sh1, ok) := SyncOf(hash, clients, sh, cid, op.child, m, map[], faults[0], faults[1]);
    if !ok then (UndoneNode(d, Uncreate(op.name)), m1, sh1) else
      var e := d.(a := d.a.(saveMetadata := true));
      var (e1, sh2, ok2) := SyncOf(hash, clients, sh1, cid, p, e, links[op.name := op.key], faults[2], faults[3]);
      (if ok2 then e1 else UndoneNode(e1, Uncreate(op.name)), m1, sh2)
  }

  ghost function CreateOperated(hash: bytes -> bytes, w: World, cid: ClientId, p: NodeId, op: Op, faults: seq<Fault>): World
    requires cid in w.clients && p in w.clients[cid].nodes && op.Create? && |faults| == 4
  {
    var c := w.clients[cid];
    var (n, m, sh) := CreateOutcome(hash, w.clients.Keys, w.shared, cid, p, op, c.nodes[p], LinksOf(c.nodes, c.nodes[p].children), faults);
    With(w, cid, Finished(c, p, n).(nodes := c.nodes[p := n][op.child := m], known := AddKnown(c.known, op.key, op.child)), sh)
  }

  /** The client while the child (todo [child, p]) or the directory (todo [p]) has yet to be synced. */
  function Creating(c: Client, p: NodeId, op: Op, n: Node, m: Node, todo: seq<NodeId>): Client
    requires p in c.nodes && op.Create?
  {
    var d := c.(nodes := c.nodes[p := n][op.child := m], known := AddKnown(c.known, op.key, op.child), found := c.found[p := c.nodes[p]]);
    Open(d, p, {p, op.child}, todo, Uncreate(op.name))
  }

  lemma CreateIsBegun(c: Client, store: map<bytes, Entry<Record>>, p: NodeId, op: Op)
    requires CanBegin(c, store, p, op) && op.Create?
    ensures Remember(Begin(c, store, p, op), p, c.nodes[p]) == Creating(c, p, op, Parented(c.nodes[p], op.name, op.kind, op.child),
      NewChild(op.kind, op.key, op.mode, op.now, op.target), [op.child, p])
  {
    hide NewChild, AddKnown;
    var n := Parented(c.nodes[p], op.name, op.kind, op.child);
    var d := WithChildren(c, p, c.nodes[p].children[op.name := op.child]);
    var e := if op.kind == File then d else Mark(d, p);
    assert e.nodes == c.nodes[p := n];
  }

  /** The key and the children of what is synced stay. */
  lemma SyncOfKeeps(hash: bytes -> bytes, clients: set<ClientId>, sh: Shared, cid: ClientId, m: NodeId, n: Node,
      links: map<bytes, Key>, fb: Fault, fm: Fault)
    ensures var n' := SyncOf(hash, clients, sh, cid, m, n, links, fb, fm).0;
      n'.a.key == n.a.key && n'.children == n.children
  {
    hide Landed;
  }

  lemma LinksOfCreated(c: Client, p: NodeId, op: Op, n: Node, m: Node)
    requires p in c.nodes && op.Create? && op.child !in c.nodes && n.a.key == c.nodes[p].a.key && m.a.key == op.key
    requires forall name :: name in c.nodes[p].children ==> c.nodes[p].children[name] in c.nodes
    ensures var children := c.nodes[p].children[op.name := op.child];
      LinksOf(c.nodes[p := n][op.child := m], children) == LinksOf(c.nodes, c.nodes[p].children)[op.name := op.key]
  {
  }

  lemma CreatingFailed(c: Client, p: NodeId, op: Op, n: Node, m: Node, todo: seq<NodeId>)
    requires Shape(c) && p in c.nodes && op.Create? && op.child !in c.nodes && p !in c.locks
    ensures var d := Creating(c, p, op, n, m, todo);
      Abort(d, p) == Finished(c, p, n).(nodes := c.nodes[p := UndoneNode(n, Uncreate(op.name))][op.child := m], known := d.known)
  {
    hide Holds, UndoneNode, AddKnown;
    var d := Creating(c, p, op, n, m, todo);
    assert op.child !in c.locks;
    assert d.threads - {p} == c.threads - {p};
    assert d.nodes[p] == n;
    var e := d.(nodes := d.nodes[p := UndoneNode(n, Uncreate(op.name))]);
    Closes(c, e, p, {p, op.child});
    assert e.nodes == c.nodes[p := UndoneNode(n, Uncreate(op.name))][op.child := m];
  }

  lemma CreatingDone(c: Client, p: NodeId, op: Op, n: Node, m: Node)
    requires Shape(c) && p in c.nodes && op.Create? && op.child !in c.nodes && p !in c.locks
    ensures var d := Creating(c, p, op, n, m, [p]);
      Advance(d, p) == Finished(c, p, n).(nodes := c.nodes[p := n][op.child := m], known := d.known)
  {
    hide Holds, AddKnown;
    var d := Creating(c, p, op, n, m, [p]);
    assert op.child !in c.locks;
    assert d.threads - {p} == c.threads - {p};
    Closes(c, d, p, {p, op.child});
  }

  lemma CreatingHalf(c: Client, p: NodeId, op: Op, n: Node, m: Node)
    requires p in c.nodes && op.Create? && op.child !in c.nodes
    ensures Advance(Creating(c, p, op, n, m, [op.child, p]), p) == Creating(c, p, op, n.(a := n.a.(saveMetadata := true)), m, [p])
  {
    hide AddKnown;
    var d := Creating(c, p, op, n, m, [op.child, p]);
    var e := n.(a := n.a.(saveMetadata := true));
    assert d.nodes[p := e] == c.nodes[p := e][op.child := m];
    assert d.threads[p := Thread([p], false, Uncreate(op.name))] == c.threads[p := Thread([p], false, Uncreate(op.name))];
    assert [op.child, p][1..] == [p];
  }

  lemma CreatingNode(c: Client, p: NodeId, op: Op, n: Node, m: Node, todo: seq<NodeId>, n': Node, m': Node)
    requires p in c.nodes && op.Create? && op.child !in c.nodes
    ensures WithNode(Creating(c, p, op, n, m, todo), p, n') == Creating(c, p, op, n', m, todo)
    ensures WithNode(Creating(c, p, op, n, m, todo), op.child, m') == Creating(c, p, op, n, m', todo)
  {
    hide AddKnown;
    assert c.nodes[p := n][op.child := m][p := n'] == c.nodes[p := n'][op.child := m];
    assert c.nodes[p := n][op.child := m][op.child := m'] == c.nodes[p := n][op.child := m'];
  }

  lemma CreatingSyncs(c: Client, p: NodeId, op: Op, n: Node, m: Node)
    requires p in c.nodes && op.Create? && op.child !in c.nodes
    ensures CanSync(Creating(c, p, op, n, m, [op.child, p]), p, false) && CanSync(Creating(c, p, op, n, m, [p]), p, false)
    ensures Creating(c, p, op, n, m, [op.child, p]).nodes == c.nodes[p := n][op.child := m]
    ensures Creating(c, p, op, n, m, [op.child, p]).threads[p].todo[0] == op.child
    ensures Creating(c, p, op, n, m, [p]).nodes == c.nodes[p := n][op.child := m]
    ensures Creating(c, p, op, n, m, [p]).threads[p].todo[0] == p
  {
  }

  lemma SameWorld(w: World, cid: ClientId, c: Client, sh: Shared, c': Client, sh': Shared)
    requires cid in w.clients
    ensures With(With(w, cid, c, sh), cid, c', sh') == With(w, cid, c', sh')
    ensures With(w, cid, c, sh).clients.Keys == w.clients.Keys
    ensures With(w, cid, c, sh).clients[cid] == c && With(w, cid, c, sh).shared == sh
  {
    assert w.clients[cid := c][cid := c'] == w.clients[cid := c'];
  }

  lemma FirstCreateSync(hash: bytes -> bytes, w: World, cid: ClientId, p: NodeId, op: Op, n: Node, m: Node, fb: Fault, fm: Fault)
    requires cid in w.clients && var c := w.clients[cid]; Shape(c) && p in c.nodes && op.Create? && op.child !in c.nodes && p !in c.locks
    requires m.children == map[]
    ensures var c := w.clients[cid];
      var w1 := With(w, cid, Creating(c, p, op, n, m, [op.child, p]), w.shared);
      var (m1, sh, ok) := SyncOf(hash, w.clients.Keys, w.shared, cid, op.child, m, map[], fb, fm);
      && cid in w1.clients && CanSync(w1.clients[cid], p, false)
      && Synced(hash, w1, cid, p, fb, fm) == With(w, cid,
           if ok then Creating(c, p, op, n.(a := n.a.(saveMetadata := true)), m1, [p])
           else Finished(c, p, n).(nodes := c.nodes[p := UndoneNode(n, Uncreate(op.name))][op.child := m1], known := AddKnown(c.known, op.key, op.child)),
           sh)
  {
    hide Creating, SyncOf, Advance, Abort, Finished, UndoneNode, With, Shape, WithNode, AddKnown;
    var c := w.clients[cid];
    var d := Creating(c, p, op, n, m, [op.child, p]);
    var (m1, sh, ok) := SyncOf(hash, w.clients.Keys, w.shared, cid, op.child, m, map[], fb, fm);
    var d1 := WithNode(d, op.child, m1);
    CreatingSyncs(c, p, op, n, m);
    CreatingSyncs(c, p, op, n, m1);
    assert LinksOf(d.nodes, m.children) == map[];
    CreatingNode(c, p, op, n, m, [op.child, p], n, m1);
    SameWorld(w, cid, d, w.shared, if ok then Advance(d1, p) else Abort(d1, p), sh);
    if ok { CreatingHalf(c, p, op, n, m1); } else { CreatingFailed(c, p, op, n, m1, [op.child, p]); CreatingKnown(c, p, op, n, m1, [op.child, p]); }
  }

  lemma CreatingKnown(c: Client, p: NodeId, op: Op, n: Node, m: Node, todo: seq<NodeId>)
    requires p in c.nodes && op.Create?
    ensures Creating(c, p, op, n, m, todo).known == AddKnown(c.known, op.key, op.child)
  {
  }

  lemma SecondCreateSync(hash: bytes -> bytes, w: World, cid: ClientId, sh0: Shared, p: NodeId, op: Op, n: Node, m: Node, fb: Fault, fm: Fault)
    requires cid in w.clients && var c := w.clients[cid]; Shape(c) && p in c.nodes && op.Create? && op.child !in c.nodes && p !in c.locks
    requires n.children == w.clients[cid].nodes[p].children[op.name := op.child] && n.a.key == w.clients[cid].nodes[p].a.key && m.a.key == op.key
    ensures var c := w.clients[cid];
      var w1 := With(w, cid, Creating(c, p, op, n, m, [p]), sh0);
      var (n1, sh, ok) := SyncOf(hash, w.clients.Keys, sh0, cid, p, n, LinksOf(c.nodes, c.nodes[p].children)[op.name := op.key], fb, fm);
      && cid in w1.clients && CanSync(w1.clients[cid], p, false)
      && Synced(hash, w1, cid, p, fb, fm) == With(w, cid, Finished(c, p, n).(
           nodes := c.nodes[p := if ok then n1 else UndoneNode(n1, Uncreate(op.name))][op.child := m], known := AddKnown(c.known, op.key, op.child)), sh)
  {
    hide Creating, SyncOf, Advance, Abort, UndoneNode, With, Shape, WithNode, AddKnown, LinksOf;
    var c := w.clients[cid];
    var links := LinksOf(c.nodes, c.nodes[p].children)[op.name := op.key];
    var d := Creating(c, p, op, n, m, [p]);
    var (n1, sh, ok) := SyncOf(hash, w.clients.Keys, sh0, cid, p, n, links, fb, fm);
    var d1 := WithNode(d, p, n1);
    CreatingSyncs(c, p, op, n, m);
    CreatingSyncs(c, p, op, n1, m);
    forall name | name in c.nodes[p].children ensures c.nodes[p].children[name] in c.nodes { ChildIn(c, p, name); }
    LinksOfCreated(c, p, op, n, m);
    CreatingNode(c, p, op, n, m, [p], n1, m);
    SameWorld(w, cid, d, sh0, if ok then Advance(d1, p) else Abort(d1, p), sh);
    CreatingKnown(c, p, op, n1, m, [p]);
    if ok { CreatingDone(c, p, op, n1, m); } else { CreatingFailed(c, p, op, n1, m, [p]); }
  }

  lemma ChildIn(c: Client, p: NodeId, name: bytes)
    requires Shape(c) && p in c.nodes && name in c.nodes[p].children
    ensures c.nodes[p].children[name] in c.nodes
  {
    assert Holds(c, p, name, c.nodes[p].children[name]);
  }

  /** A creation without interruption is a run, whatever the outcomes of its four puts. */
  lemma CreationRuns(hash: bytes -> bytes, run: seq<Label>, w: World, cid: ClientId, p: NodeId, op: Op, faults: seq<Fault>) returns (labels: seq<Label>)
    requires Reaches(hash, run, w) && |run| + 5 < MAX_UINT64 as int && cid in w.clients && Shape(w.clients[cid])
    requires CanBegin(w.clients[cid], w.shared.store, p, op) && op.Create? && |faults| == 4
    ensures Reaches(hash, run + labels, CreateOperated(hash, w, cid, p, op, faults)) && 0 < |labels| <= 5
    ensures labels[0] == Start(cid, p, op)
  {
    hide Reaches, Begin, Synced, SyncOf, Shape, Creating, UndoneNode, LinksOf, AddKnown, Remember, NewChild;
    var c := w.clients[cid];
    var l := Start(cid, p, op);
    Extend(hash, run, w, l);
    CreateIsBegun(c, w.shared.store, p, op);
    var d, m := Parented(c.nodes[p], op.name, op.kind, op.child), NewChild(op.kind, op.key, op.mode, op.now, op.target);
    NewChildIs(op.kind, op.key, op.mode, op.now, op.target);
    var w1 := With(w, cid, Creating(c, p, op, d, m, [op.child, p]), w.shared);
    assert Step(hash, w, l).value == w1;
    FirstCreateSync(hash, w, cid, p, op, d, m, faults[0], faults[1]);
    SyncIsTwoSteps(hash, run + [l], w1, cid, p, faults[0], faults[1]);
    var first := SyncLabels(hash, w1, cid, p, faults[0], faults[1]);
    var (m1, sh1, ok) := SyncOf(hash, w.clients.Keys, w.shared, cid, op.child, m, map[], faults[0], faults[1]);
    assert run + [l] + first == run + ([l] + first);
    if !ok { return [l] + first; }
    var e := d.(a := d.a.(saveMetadata := true));
    SyncOfKeeps(hash, w.clients.Keys, w.shared, cid, op.child, m, map[], faults[0], faults[1]);
    SecondCreateSync(hash, w, cid, sh1, p, op, e, m1, faults[2], faults[3]);
    var w2 := With(w, cid, Creating(c, p, op, e, m1, [p]), sh1);
    SyncIsTwoSteps(hash, run + ([l] + first), w2, cid, p, faults[2], faults[3]);
    var second := SyncLabels(hash, w2, cid, p, faults[2], faults[3]);
    assert run + ([l] + first) + second == run + ([l] + first + second);
    labels := [l] + first + second;
  }

  lemma NewChildIs(kind: Kind, key: Key, mode: uint16, now: int64, target: bytes)
    ensures var m := NewChild(kind, key, mode, now, target); m.a.key == key && m.children == map[]
  {
  }

  // ----- Rename -----

  /** The client while these nodes have yet to be synced by an operation on p that nothing takes back. */
  function Pending(c: Client, p: NodeId, nodes: map<NodeId, Node>, locked: set<NodeId>, todo: seq<NodeId>): Client
    requires p in c.nodes
  {
    Open(c.(nodes := nodes, found := c.found[p := c.nodes[p]]), p, locked, todo, Nothing)
  }

  function Settled(c: Client, p: NodeId, nodes: map<NodeId, Node>): Client
    requires p in c.nodes
  {
    c.(nodes := nodes, found := c.found[p := c.nodes[p]])
  }

  /** The nodes and the stores after the syncs of these nodes, one after the other, until one fails. */
  ghost function SyncAll(hash: bytes -> bytes, clients: set<ClientId>, sh: Shared, cid: ClientId, nodes: map<NodeId, Node>,
      todo: seq<NodeId>, faults: seq<(Fault, Fault)>): (map<NodeId, Node>, Shared)
    requires |faults| == |todo| && forall m :: m in todo ==> m in nodes
    decreases |todo|
  {
    if todo == [] then (nodes, sh) else
      var m := todo[0];
      var (n, sh1, ok) := SyncOf(hash, clients, sh, cid, m, nodes[m], LinksOf(nodes, nodes[m].children), faults[0].0, faults[0].1);
      if ok then SyncAll(hash, clients, sh1, cid, nodes[m := n], todo[1..], faults[1..]) else (nodes[m := n], sh1)
  }

  lemma PendingSyncs(c: Client, p: NodeId, nodes: map<NodeId, Node>, locked: set<NodeId>, todo: seq<NodeId>)
    requires p in c.nodes && p in nodes && todo != [] && forall m :: m in todo ==> m in nodes
    ensures var d := Pending(c, p, nodes, locked, todo);
      CanSync(d, p, false) && d.threads[p] == Thread(todo, false, Nothing) && d.nodes == nodes
  {
  }

  lemma PendingNext(c: Client, p: NodeId, nodes: map<NodeId, Node>, locked: set<NodeId>, todo: seq<NodeId>, n: Node)
    requires p in c.nodes && p in nodes && |todo| > 1 && forall m :: m in todo ==> m in nodes
    ensures var d := WithNode(Pending(c, p, nodes, locked, todo), todo[0], n);
      && CanSync(d, p, false) && Advance(d, p) == Pending(c, p, nodes[todo[0] := n], locked, todo[1..])
  {
    var d := WithNode(Pending(c, p, nodes, locked, todo), todo[0], n);
    assert d.threads[p := Thread(todo[1..], false, Nothing)] == c.threads[p := Thread(todo[1..], false, Nothing)];
  }

  lemma PendingEnds(c: Client, p: NodeId, nodes: map<NodeId, Node>, locked: set<NodeId>, todo: seq<NodeId>, n: Node)
    requires Shape(c) && p in c.nodes && p !in c.locks && p in locked && forall x :: x in locked ==> x !in c.locks
    requires p in nodes && todo != [] && forall m :: m in todo ==> m in nodes
    ensures var d := WithNode(Pending(c, p, nodes, locked, todo), todo[0], n);
      && CanSync(d, p, false) && Abort(d, p) == Settled(c, p, nodes[todo[0] := n])
      && (|todo| == 1 ==> Advance(d, p) == Settled(c, p, nodes[todo[0] := n]))
  {
    hide Shape;
    var d := WithNode(Pending(c, p, nodes, locked, todo), todo[0], n);
    assert d.threads - {p} == c.threads - {p};
    assert d.nodes[p := d.nodes[p]] == d.nodes;
    Closes(c, d, p, locked);
    NothingThreads(c, p);
  }

  lemma NothingThreads(c: Client, p: NodeId)
    requires Shape(c) && p !in c.locks
    ensures p !in c.threads
  {
    hide Holds;
  }

  lemma PendingSynced(hash: bytes -> bytes, w: World, cid: ClientId, sh: Shared, p: NodeId, nodes: map<NodeId, Node>,
      locked: set<NodeId>, todo: seq<NodeId>, fb: Fault, fm: Fault)
    requires cid in w.clients && Shape(w.clients[cid]) && p in w.clients[cid].nodes
    requires p !in w.clients[cid].locks && p in locked && forall x :: x in locked ==> x !in w.clients[cid].locks
    requires p in nodes && todo != [] && forall m :: m in todo ==> m in nodes
    ensures var c := w.clients[cid];
      var w1 := With(w, cid, Pending(c, p, nodes, locked, todo), sh);
      var m := todo[0];
      var (n, sh1, ok) := SyncOf(hash, w.clients.Keys, sh, cid, m, nodes[m], LinksOf(nodes, nodes[m].children), fb, fm);
      && cid in w1.clients && CanSync(w1.clients[cid], p, false)
      && Synced(hash, w1, cid, p, fb, fm) == With(w, cid,
           if ok && |todo| > 1 then Pending(c, p, nodes[m := n], locked, todo[1..]) else Settled(c, p, nodes[m := n]), sh1)
  {
    hide Pending, Settled, SyncOf, Advance, Abort, With, Shape, WithNode, LinksOf;
    var c, m := w.clients[cid], todo[0];
    var d := Pending(c, p, nodes, locked, todo);
    var (n, sh1, ok) := SyncOf(hash, w.clients.Keys, sh, cid, m, nodes[m], LinksOf(nodes, nodes[m].children), fb, fm);
    PendingSyncs(c, p, nodes, locked, todo);
    PendingEnds(c, p, nodes, locked, todo, n);
    if |todo| > 1 { PendingNext(c, p, nodes, locked, todo, n); }
    var d1 := WithNode(d, m, n);
    SameWorld(w, cid, d, sh, if ok then Advance(d1, p) else Abort(d1, p), sh1);
  }

  lemma {:induction false} SyncAllRuns(hash: bytes -> bytes, run: seq<Label>, w: World, cid: ClientId, sh: Shared, p: NodeId,
      nodes: map<NodeId, Node>, locked: set<NodeId>, todo: seq<NodeId>, faults: seq<(Fault, Fault)>) returns (labels: seq<Label>)
    requires cid in w.clients && Shape(w.clients[cid]) && p in w.clients[cid].nodes
    requires p !in w.clients[cid].locks && p in locked && forall x :: x in locked ==> x !in w.clients[cid].locks
    requires p in nodes && todo != [] && |faults| == |todo| && forall m :: m in todo ==> m in nodes
    requires |run| + 2 * |todo| < MAX_UINT64 as int
    requires Reaches(hash, run, With(w, cid, Pending(w.clients[cid], p, nodes, locked, todo), sh))
    ensures var (nodes', sh') := SyncAll(hash, w.clients.Keys, sh, cid, nodes, todo, faults);
      Reaches(hash, run + labels, With(w, cid, Settled(w.clients[cid], p, nodes'), sh')) && |labels| <= 2 * |todo|
    decreases |todo|
  {
    hide Reaches, Pending, Settled, SyncOf, Shape, With, Synced, LinksOf, SyncContent, CanSync;
    var c, m := w.clients[cid], todo[0];
    var (fb, fm) := faults[0];
    var w1 := With(w, cid, Pending(c, p, nodes, locked, todo), sh);
    PendingSynced(hash, w, cid, sh, p, nodes, locked, todo, fb, fm);
    SyncIsTwoSteps(hash, run, w1, cid, p, fb, fm);
    var first := SyncLabels(hash, w1, cid, p, fb, fm);
    var (n, sh1, ok) := SyncOf(hash, w.clients.Keys, sh, cid, m, nodes[m], LinksOf(nodes, nodes[m].children), fb, fm);
    labels := first;
    if ok && |todo| > 1 {
      var rest := SyncAllRuns(hash, run + first, w, cid, sh1, p, nodes[m := n], locked, todo[1..], faults[1..]);
      assert run + first + rest == run + (first + rest);
      labels := first + rest;
    }
  }

  /** A Rename without interruption is a run, whatever the outcomes of its six puts. */
  lemma RenameRuns(hash: bytes -> bytes, run: seq<Label>, w: World, cid: ClientId, p: NodeId, op: Op, faults: seq<(Fault, Fault)>)
      returns (labels: seq<Label>)
    requires Reaches(hash, run, w) && |run| + 7 < MAX_UINT64 as int && cid in w.clients && Shape(w.clients[cid])
    requires CanBegin(w.clients[cid], w.shared.store, p, op) && op.Rename? && |faults| == 3
    ensures var c := w.clients[cid];
      var nodes := Begin(c, w.shared.store, p, op).nodes;
      var todo := [c.nodes[p].children[op.name], op.to, p];
      && p in nodes && (forall m :: m in todo ==> m in nodes)
      && var (nodes', sh') := SyncAll(hash, w.clients.Keys, w.shared, cid, nodes, todo, faults);
         Reaches(hash, run + labels, With(w, cid, Settled(c, p, nodes'), sh')) && 0 < |labels| <= 7 && labels[0] == Start(cid, p, op)
  {
    hide Reaches, Shape, SyncAll, Begin, Settled;
    var c := w.clients[cid];
    var l := Start(cid, p, op);
    var x := c.nodes[p].children[op.name];
    Extend(hash, run, w, l);
    RenameIsBegun(c, w.shared.store, p, op);
    var nodes := Begin(c, w.shared.store, p, op).nodes;
    var rest := SyncAllRuns(hash, run + [l], w, cid, w.shared, p, nodes, {p, x, op.to}, [x, op.to, p], faults);
    assert run + [l] + rest == run + ([l] + rest);
    labels := [l] + rest;
  }

  lemma RenameIsBegun(c: Client, store: map<bytes, Entry<Record>>, p: NodeId, op: Op)
    requires CanBegin(c, store, p, op) && op.Rename?
    ensures var d := Begin(c, store, p, op);
      var x := c.nodes[p].children[op.name];
      && d.nodes.Keys == c.nodes.Keys
      && Remember(d, p, c.nodes[p]) == Pending(c, p, d.nodes, {p, x, op.to}, [x, op.to, p])
  {
  }
}
