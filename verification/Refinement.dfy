/** The operations of the node objects are runs of the protocol: what the contracts of CryptNode say of
    a call is what the steps of one client do when nothing comes between them. */
module Refinement {
  import opened Types
  import opened NodeCodec
  import opened Storage
  import opened NodeSpec
  import opened Protocol
  import opened ProtocolInv
  import opened ProtocolBegins
  import opened ProtocolDirs
  import opened Executions
  import opened Representation

  /** The two stores of the nodes stand for those of the protocol. */
  ghost predicate StandsFor(e: Env, sh: Shared) {
    Represents(e.meta, sh.store) && e.blobs == sh.blobs
  }

  /** sync of the node is sync of the protocol, with the outcomes of its calls as faults. */
  lemma SyncRefines(hash: bytes -> bytes, clients: set<ClientId>, sh: Shared, cid: ClientId, m: NodeId, n: Node, links: map<bytes, Key>,
      e: Env, a2: Attrs, e2: Env, errno: Errno)
    requires Syncs(n.a, links, hash, e, a2, e2, errno) && StandsFor(e, sh)
    ensures var (n', sh', ok) := SyncOf(hash, clients, sh, cid, m, n, links, Head(e.blobFaults), Head(e.metaFaults));
      && n'.a == a2 && n'.children == n.children && StandsFor(e2, sh') && errno == if ok then OK else EIO
  {
    hide Syncs, Represents, SyncContent, SyncMetadata, TryPut;
    SyncsAgree(n.a, links, hash, e, a2, e2, errno, sh.store);
    SyncKeeps(n.a, links, hash, e, a2, e2, errno);
    var (b, blobs, ok) := SyncContent(n.a, hash, sh.blobs, Head(e.blobFaults));
    if ok {
      LandedIsStored(clients, sh.(blobs := blobs), cid, m, n.(a := b), RecordOf(b, links), Head(e.metaFaults));
    }
  }

  /** The store of the protocol after a put is that of SyncMetadata. */
  lemma LandedIsStored(clients: set<ClientId>, sh: Shared, cid: ClientId, m: NodeId, n: Node, record: Record, fault: Fault)
    ensures var sh' := Landed(clients, sh, cid, m, n, record, fault);
      sh'.store == SyncMetadata(n.a, record, sh.store, fault).1 && sh'.blobs == sh.blobs
  {
  }

  // ----- Setxattr, Setattr, Flush, Rmdir and Unlink -----

  /** What the contract of the method says of a call that does not return early, on a node n. */
  ghost predicate Called(n: Node, links: map<bytes, Key>, op: Op, hash: bytes -> bytes, e: Env,
      after: Attrs, children: map<bytes, NodeId>, e2: Env, errno: Errno)
  {
    match op
    case Setxattr(attr, value) =>
      && children == n.children
      && exists mid :: (
           && Syncs(n.a.(xattrs := n.a.xattrs[attr := value], saveMetadata := true), links, hash, e, mid, e2, errno)
           && after == if errno == OK then mid else mid.(xattrs := n.a.xattrs))
    case Setattr(change, resized, now) =>
      && children == n.children
      && exists mid :: (
           && Syncs(Changed(n.a, change, resized, now), links, hash, e, mid, e2, errno)
           && after == if errno == OK then mid else Unchanged(mid, change, n.a))
    case Flush =>
      && children == n.children
      && exists mid :: (
           && Syncs(n.a, links, hash, e, mid, e2, errno)
           && after == if errno == OK then mid else Unflushed(mid, n.a.contentKey))
    case Rmdir(name) => Removed(n, links, name, hash, e, after, children, e2, errno)
    case Unlink(name) => Removed(n, links, name, hash, e, after, children, e2, errno)
    case Create(_, _, _, _, _, _, _) => false
    case Rename(_, _, _) => false
  }

  ghost predicate Removed(n: Node, links: map<bytes, Key>, name: bytes, hash: bytes -> bytes, e: Env,
      after: Attrs, children: map<bytes, NodeId>, e2: Env, errno: Errno)
  {
    && Syncs(n.a.(saveMetadata := true), links - {name}, hash, e, after, e2, errno)
    && children == if errno == OK then n.children - {name} else n.children
  }

  /** The same, in the terms of the protocol. */
  lemma CalledIsPrepared(c: Client, store: map<bytes, Entry<Record>>, p: NodeId, op: Op, hash: bytes -> bytes, e: Env,
      after: Attrs, children: map<bytes, NodeId>, e2: Env, errno: Errno) returns (mid: Attrs)
    requires CanBegin(c, store, p, op) && IsSimple(op)
    requires Called(c.nodes[p], LinksOf(c.nodes, c.nodes[p].children), op, hash, e, after, children, e2, errno)
    ensures var (n, undo) := Prepared(c, store, p, op);
      && Syncs(n.a, LinksOf(c.nodes, n.children), hash, e, mid, e2, errno)
      && var n' := if errno == OK then n.(a := mid) else UndoneNode(n.(a := mid), undo);
         n'.a == after && n'.children == children
  {
    hide Syncs, Changed, Unchanged, Unflushed, LinksOf, Unset;
    var n := c.nodes[p];
    match op
    case Setxattr(attr, value) =>
      mid :| Syncs(n.a.(xattrs := n.a.xattrs[attr := value], saveMetadata := true), LinksOf(c.nodes, n.children), hash, e, mid, e2, errno)
        && after == if errno == OK then mid else mid.(xattrs := n.a.xattrs);
      SyncKeeps(n.a.(xattrs := n.a.xattrs[attr := value], saveMetadata := true), LinksOf(c.nodes, n.children), hash, e, mid, e2, errno);
      AttrPutBack(n.a.xattrs, attr, value);
    case Setattr(change, resized, now) =>
      mid :| Syncs(Changed(n.a, change, resized, now), LinksOf(c.nodes, n.children), hash, e, mid, e2, errno)
        && after == if errno == OK then mid else Unchanged(mid, change, n.a);
    case Flush =>
      mid :| Syncs(n.a, LinksOf(c.nodes, n.children), hash, e, mid, e2, errno)
        && after == if errno == OK then mid else Unflushed(mid, n.a.contentKey);
    case Rmdir(name) => mid := after; LinksWithout(c.nodes, n.children, name); LinkPutBack(n.children, name);
    case Unlink(name) => mid := after; LinksWithout(c.nodes, n.children, name); LinkPutBack(n.children, name);
    case _ =>
  }

  lemma AttrPutBack(xattrs: map<bytes, bytes>, attr: bytes, value: bytes)
    ensures Unset(xattrs[attr := value], attr, if attr in xattrs then Some(xattrs[attr]) else None) == xattrs
  {
  }

  lemma LinksWithout(nodes: map<NodeId, Node>, children: map<bytes, NodeId>, name: bytes)
    ensures LinksOf(nodes, children - {name}) == LinksOf(nodes, children) - {name}
  {
  }

  lemma LinkPutBack(children: map<bytes, NodeId>, name: bytes)
    ensures name in children ==> (children - {name})[name := children[name]] == children
    ensures name !in children ==> children - {name} == children
  {
  }

  /** From a reachable world, a call of one of these methods on a node of a client is a run of that client's
      steps: it leads to the node that the contract describes, to stores that those of the client stand
      for again, and changes no other object and no lock. */
  lemma OperationRefines(hash: bytes -> bytes, run: seq<Label>, w: World, cid: ClientId, p: NodeId, op: Op, e: Env,
      after: Attrs, children: map<bytes, NodeId>, e2: Env, errno: Errno) returns (labels: seq<Label>, w': World)
    requires Reaches(hash, run, w) && |run| + 3 < MAX_UINT64 as int && cid in w.clients && Shape(w.clients[cid])
    requires CanBegin(w.clients[cid], w.shared.store, p, op) && IsSimple(op) && StandsFor(e, w.shared)
    requires var c := w.clients[cid]; Called(c.nodes[p], LinksOf(c.nodes, c.nodes[p].children), op, hash, e, after, children, e2, errno)
    ensures Reaches(hash, run + labels, w') && 0 < |labels| <= 3 && labels[0] == Start(cid, p, op)
    ensures StandsFor(e2, w'.shared) && cid in w'.clients && w'.clients == w.clients[cid := w'.clients[cid]]
    ensures var (c, d) := (w.clients[cid], w'.clients[cid]);
      && p in d.nodes && d.nodes == c.nodes[p := d.nodes[p]] && d.nodes[p].a == after && d.nodes[p].children == children
      && d.known == c.known && d.locks == c.locks && d.threads == c.threads
  {
    hide Reaches, Called, CanBegin, Shape, StandsFor, Syncs, SyncOf, Prepared, UndoneNode, LinksOf;
    var c := w.clients[cid];
    var mid := CalledIsPrepared(c, w.shared.store, p, op, hash, e, after, children, e2, errno);
    var (n, undo) := Prepared(c, w.shared.store, p, op);
    var fb, fm := Head(e.blobFaults), Head(e.metaFaults);
    SyncRefines(hash, w.clients.Keys, w.shared, cid, p, n, LinksOf(c.nodes, n.children), e, mid, e2, errno);
    labels := OperationRuns(hash, run, w, cid, p, op, fb, fm);
    w' := Operated(hash, w, cid, p, op, fb, fm);
    var n' := SyncOf(hash, w.clients.Keys, w.shared, cid, p, n, LinksOf(c.nodes, n.children), fb, fm).0;
    SameUndone(n', n.(a := mid), undo);
    BeginNodes(c, w.shared.store, p, op);
  }

  lemma SameUndone(n: Node, n': Node, undo: Undo)
    requires n.a == n'.a && n.children == n'.children
    ensures UndoneNode(n, undo).a == UndoneNode(n', undo).a && UndoneNode(n, undo).children == UndoneNode(n', undo).children
  {
  }

  lemma BeginNodes(c: Client, store: map<bytes, Entry<Record>>, p: NodeId, op: Op)
    requires CanBegin(c, store, p, op)
    ensures p in c.nodes
  {
  }

  // ----- Create, Mkdir and Symlink -----

  /** What the contracts of these methods say: the child is synced between d and e, and only if that works
      its directory between e and f; if either fails the name is dropped. */
  ghost predicate Creates(n: Node, links: map<bytes, Key>, op: Op, hash: bytes -> bytes, d: Env, e: Env,
      child: Attrs, after: Attrs, children: map<bytes, NodeId>, f: Env, errno: Errno)
    requires op.Create?
  {
    && SyncedInOrder(NewAttrs(op), map[], child, if op.kind == File then n.a else n.a.(saveMetadata := true),
         links[op.name := op.key], after, hash, d, e, f, errno)
    && children == if errno == OK then n.children[op.name := op.child] else n.children[op.name := op.child] - {op.name}
  }

  /** The fields of the child before its sync. */
  function NewAttrs(op: Op): Attrs
    requires op.Create?
  {
    match op.kind
    case File => Created(op.key, WithBit(op.mode, S_IFREG), op.now).(saveMetadata := true)
    case Directory => Created(op.key, WithBit(op.mode, S_IFDIR), op.now).(saveMetadata := true)
    case Link => Created(op.key, S_IFLNK, op.now).(saveMetadata := true, saveContent := true, content := op.target)
  }

  lemma NewAttrsIs(op: Op)
    requires op.Create?
    ensures var m := NewChild(op.kind, op.key, op.mode, op.now, op.target); m.a == NewAttrs(op) && m.children == map[]
  {
  }

  lemma CreationIsOutcome(hash: bytes -> bytes, w: World, cid: ClientId, p: NodeId, op: Op, d: Env, e: Env,
      child: Attrs, after: Attrs, children: map<bytes, NodeId>, f: Env, errno: Errno)
    requires cid in w.clients && p in w.clients[cid].nodes && op.Create? && StandsFor(d, w.shared)
    requires var c := w.clients[cid];
      Creates(c.nodes[p], LinksOf(c.nodes, c.nodes[p].children), op, hash, d, e, child, after, children, f, errno)
    ensures var c := w.clients[cid];
      var faults := [Head(d.blobFaults), Head(d.metaFaults), Head(e.blobFaults), Head(e.metaFaults)];
      var (n, m, sh) := CreateOutcome(hash, w.clients.Keys, w.shared, cid, p, op, c.nodes[p], LinksOf(c.nodes, c.nodes[p].children), faults);
      n.a == after && n.children == children && m.a == child && m.children == map[] && StandsFor(f, sh)
  {
    hide Syncs, SyncOf, StandsFor, LinksOf, NewChild, NewAttrs;
    NewAttrsIs(op);
    var c, keys := w.clients[cid], w.clients.Keys;
    var n, m := Parented(c.nodes[p], op.name, op.kind, op.child), NewChild(op.kind, op.key, op.mode, op.now, op.target);
    var links := LinksOf(c.nodes, c.nodes[p].children)[op.name := op.key];
    var (m1, sh1, ok) := SyncOf(hash, keys, w.shared, cid, op.child, m, map[], Head(d.blobFaults), Head(d.metaFaults));
    if Syncs(m.a, map[], hash, d, child, e, EIO) && after == n.a && f == e && errno == EIO {
      SyncRefines(hash, keys, w.shared, cid, op.child, m, map[], d, child, e, EIO);
    } else {
      SyncRefines(hash, keys, w.shared, cid, op.child, m, map[], d, child, e, OK);
      SyncRefines(hash, keys, sh1, cid, p, n.(a := n.a.(saveMetadata := true)), links, e, after, f, errno);
    }
  }

  /** A call of one of these is a run too, with the same child and the same directory at its end. */
  lemma CreationRefines(hash: bytes -> bytes, run: seq<Label>, w: World, cid: ClientId, p: NodeId, op: Op, d: Env, e: Env,
      child: Attrs, after: Attrs, children: map<bytes, NodeId>, f: Env, errno: Errno) returns (labels: seq<Label>, w': World)
    requires Reaches(hash, run, w) && |run| + 5 < MAX_UINT64 as int && cid in w.clients && Shape(w.clients[cid])
    requires CanBegin(w.clients[cid], w.shared.store, p, op) && op.Create? && StandsFor(d, w.shared)
    requires var c := w.clients[cid];
      Creates(c.nodes[p], LinksOf(c.nodes, c.nodes[p].children), op, hash, d, e, child, after, children, f, errno)
    ensures Reaches(hash, run + labels, w') && 0 < |labels| <= 5 && labels[0] == Start(cid, p, op)
    ensures StandsFor(f, w'.shared) && cid in w'.clients && w'.clients == w.clients[cid := w'.clients[cid]]
    ensures var (c1, c2) := (w.clients[cid], w'.clients[cid]);
      && p in c2.nodes && op.child in c2.nodes && c2.nodes == c1.nodes[p := c2.nodes[p]][op.child := c2.nodes[op.child]]
      && c2.nodes[p].a == after && c2.nodes[p].children == children
      && c2.nodes[op.child].a == child && c2.nodes[op.child].children == map[]
      && c2.known == (if op.key in c1.known then c1.known else c1.known[op.key := op.child]) && c2.locks == c1.locks && c2.threads == c1.threads
  {
    hide Reaches, Creates, Shape, StandsFor, CreateOutcome, LinksOf;
    BeginNodes(w.clients[cid], w.shared.store, p, op);
    CreationIsOutcome(hash, w, cid, p, op, d, e, child, after, children, f, errno);
    var faults := [Head(d.blobFaults), Head(d.metaFaults), Head(e.blobFaults), Head(e.metaFaults)];
    labels := CreationRuns(hash, run, w, cid, p, op, faults);
    w' := CreateOperated(hash, w, cid, p, op, faults);
  }

  // ----- Rename -----

  /** What the contract of Rename says of the nodes before their syncs: x goes from p to its new name, and the
      three are dirty. */
  ghost predicate IsMoved(before: map<NodeId, Node>, p: NodeId, x: NodeId, to: NodeId, name: bytes, newName: bytes, nodes: map<NodeId, Node>) {
    && p in before && to in before && x in before && nodes.Keys == before.Keys
    && (forall m :: m in before ==> nodes[m] == before[m].(
          a := if m in {p, x, to} then before[m].a.(saveMetadata := true) else before[m].a, children := nodes[m].children))
    && (forall m :: m in before && m != p && m != to ==> nodes[m].children == before[m].children)
    && nodes[p].children == (if to == p then before[p].children[newName := x] else before[p].children) - {name}
    && (to != p ==> nodes[to].children == before[to].children[newName := x])
  }

  lemma MovedIsBegun(c: Client, store: map<bytes, Entry<Record>>, p: NodeId, op: Op, nodes: map<NodeId, Node>)
    requires CanBegin(c, store, p, op) && op.Rename?
    requires IsMoved(c.nodes, p, c.nodes[p].children[op.name], op.to, op.name, op.newName, nodes)
    ensures Begin(c, store, p, op).nodes == nodes
  {
    hide BeginRename;
    var d := Begin(c, store, p, op);
    BeginRenameIs(c, p, op.name, op.to, op.newName);
    forall m | m in nodes ensures d.nodes[m] == nodes[m] { }
  }

  /** What the contract says of the syncs: x, its new parent and its old one are synced in this order, with
      the outcomes r1, r2 and errno, until one fails; nodes are the three after they have been changed. */
  ghost predicate Renames(nodes: map<NodeId, Node>, x: NodeId, to: NodeId, p: NodeId, hash: bytes -> bytes, e: Env,
      x2: Attrs, e1: Env, r1: Errno, v: Attrs, e2: Env, r2: Errno, p2: Attrs, e3: Env, errno: Errno)
    requires x in nodes && to in nodes && p in nodes
  {
    && Syncs(nodes[x].a, LinksOf(nodes, nodes[x].children), hash, e, x2, e1, r1)
    && (r1 == OK ==> Syncs(nodes[to].a, LinksOf(nodes, nodes[to].children), hash, e1, v, e2, r2))
    && (r1 == OK && r2 == OK ==>
          Syncs(if to == p then v else nodes[p].a, LinksOf(nodes, nodes[p].children), hash, e2, p2, e3, errno))
    && (r1 != OK ==> errno == r1 && e3 == e1 && p2 == nodes[p].a && v == nodes[to].a)
    && (r1 == OK && r2 != OK ==> errno == r2 && e3 == e2 && p2 == if to == p then v else nodes[p].a)
  }

  /** The key of a node stays, so that the links of the others do. */
  lemma LinksStay(nodes: map<NodeId, Node>, m: NodeId, n: Node, children: map<bytes, NodeId>)
    requires m in nodes && n.a.key == nodes[m].a.key
    ensures LinksOf(nodes[m := n], children) == LinksOf(nodes, children)
  {
  }

  lemma LastSync(hash: bytes -> bytes, clients: set<ClientId>, sh: Shared, cid: ClientId, nodes: map<NodeId, Node>, m: NodeId, f: (Fault, Fault))
    requires m in nodes
    ensures var (n, sh1, _) := SyncOf(hash, clients, sh, cid, m, nodes[m], LinksOf(nodes, nodes[m].children), f.0, f.1);
      SyncAll(hash, clients, sh, cid, nodes, [m], [f]) == (nodes[m := n], sh1)
  {
    hide SyncOf, LinksOf;
    assert |[m][1..]| == 0;
  }

  lemma RenameIsSyncAll(hash: bytes -> bytes, clients: set<ClientId>, sh: Shared, cid: ClientId, nodes: map<NodeId, Node>,
      x: NodeId, to: NodeId, p: NodeId, e: Env, x2: Attrs, e1: Env, r1: Errno, v: Attrs, e2: Env, r2: Errno, p2: Attrs, e3: Env, errno: Errno)
    requires x in nodes && to in nodes && p in nodes && x != to && x != p && StandsFor(e, sh)
    requires Renames(nodes, x, to, p, hash, e, x2, e1, r1, v, e2, r2, p2, e3, errno)
    ensures var faults := [(Head(e.blobFaults), Head(e.metaFaults)), (Head(e1.blobFaults), Head(e1.metaFaults)), (Head(e2.blobFaults), Head(e2.metaFaults))];
      var (nodes', sh') := SyncAll(hash, clients, sh, cid, nodes, [x, to, p], faults);
      && StandsFor(e3, sh') && nodes'.Keys == nodes.Keys
      && (forall m :: m in nodes ==> nodes'[m].children == nodes[m].children && (m in {x, to, p} || nodes'[m] == nodes[m]))
      && nodes'[x].a == x2 && nodes'[p].a == p2 && (to != p ==> nodes'[to].a == v)
  {
    hide Syncs, SyncOf, StandsFor, LinksOf;
    var f1, f2, f3 := (Head(e.blobFaults), Head(e.metaFaults)), (Head(e1.blobFaults), Head(e1.metaFaults)), (Head(e2.blobFaults), Head(e2.metaFaults));
    var (n1, sh1, ok1) := SyncOf(hash, clients, sh, cid, x, nodes[x], LinksOf(nodes, nodes[x].children), f1.0, f1.1);
    SyncRefines(hash, clients, sh, cid, x, nodes[x], LinksOf(nodes, nodes[x].children), e, x2, e1, r1);
    SyncOfKeeps(hash, clients, sh, cid, x, nodes[x], LinksOf(nodes, nodes[x].children), f1.0, f1.1);
    assert [f1, f2, f3][1..] == [f2, f3] && [x, to, p][1..] == [to, p];
    var nodes1 := nodes[x := n1];
    if ok1 {
      LinksStay(nodes, x, n1, nodes[to].children);
      LinksStay(nodes, x, n1, nodes[p].children);
      var (n2, sh2, ok2) := SyncOf(hash, clients, sh1, cid, to, nodes1[to], LinksOf(nodes1, nodes1[to].children), f2.0, f2.1);
      SyncRefines(hash, clients, sh1, cid, to, nodes1[to], LinksOf(nodes1, nodes1[to].children), e1, v, e2, r2);
      SyncOfKeeps(hash, clients, sh1, cid, to, nodes1[to], LinksOf(nodes1, nodes1[to].children), f2.0, f2.1);
      assert [f2, f3][1..] == [f3] && [to, p][1..] == [p];
      var nodes2 := nodes1[to := n2];
      assert SyncAll(hash, clients, sh, cid, nodes, [x, to, p], [f1, f2, f3]) == SyncAll(hash, clients, sh1, cid, nodes1, [to, p], [f2, f3]);
      if ok2 {
        assert SyncAll(hash, clients, sh1, cid, nodes1, [to, p], [f2, f3]) == SyncAll(hash, clients, sh2, cid, nodes2, [p], [f3]);
        LinksStay(nodes1, to, n2, nodes[p].children);
        LastSync(hash, clients, sh2, cid, nodes2, p, f3);
        SyncRefines(hash, clients, sh2, cid, p, nodes2[p], LinksOf(nodes2, nodes2[p].children), e2, p2, e3, errno);
        SyncOfKeeps(hash, clients, sh2, cid, p, nodes2[p], LinksOf(nodes2, nodes2[p].children), f3.0, f3.1);
      }
    }
  }

  /** A call of Rename is a run, with all of the nodes as its contract says, also if it stops half-way. */
  lemma RenameRefines(hash: bytes -> bytes, run: seq<Label>, w: World, cid: ClientId, p: NodeId, op: Op, nodes: map<NodeId, Node>, e: Env,
      x2: Attrs, e1: Env, r1: Errno, v: Attrs, e2: Env, r2: Errno, p2: Attrs, e3: Env, errno: Errno) returns (labels: seq<Label>, w': World)
    requires Reaches(hash, run, w) && |run| + 7 < MAX_UINT64 as int && cid in w.clients && Shape(w.clients[cid])
    requires CanBegin(w.clients[cid], w.shared.store, p, op) && op.Rename? && StandsFor(e, w.shared)
    requires var (c, x) := (w.clients[cid], w.clients[cid].nodes[p].children[op.name]);
      IsMoved(c.nodes, p, x, op.to, op.name, op.newName, nodes) && Renames(nodes, x, op.to, p, hash, e, x2, e1, r1, v, e2, r2, p2, e3, errno)
    ensures Reaches(hash, run + labels, w') && 0 < |labels| <= 7 && labels[0] == Start(cid, p, op)
    ensures StandsFor(e3, w'.shared) && cid in w'.clients && w'.clients == w.clients[cid := w'.clients[cid]]
    ensures var (c, d) := (w.clients[cid], w'.clients[cid]);
      var x := c.nodes[p].children[op.name];
      && d.nodes.Keys == nodes.Keys
      && (forall m :: m in nodes ==> d.nodes[m].children == nodes[m].children && (m in {x, op.to, p} || d.nodes[m] == nodes[m]))
      && d.nodes[x].a == x2 && d.nodes[p].a == p2 && (op.to != p ==> d.nodes[op.to].a == v)
      && d.known == c.known && d.locks == c.locks && d.threads == c.threads
  {
    hide Reaches, Renames, Shape, StandsFor, SyncAll, Begin;
    var c := w.clients[cid];
    MovedIsBegun(c, w.shared.store, p, op, nodes);
    var x := c.nodes[p].children[op.name];
    var faults := [(Head(e.blobFaults), Head(e.metaFaults)), (Head(e1.blobFaults), Head(e1.metaFaults)), (Head(e2.blobFaults), Head(e2.metaFaults))];
    RenameIsSyncAll(hash, w.clients.Keys, w.shared, cid, nodes, x, op.to, p, e, x2, e1, r1, v, e2, r2, p2, e3, errno);
    labels := RenameRuns(hash, run, w, cid, p, op, faults);
    var (nodes', sh') := SyncAll(hash, w.clients.Keys, w.shared, cid, nodes, [x, op.to, p], faults);
    w' := Executions.With(w, cid, Settled(c, p, nodes'), sh');
  }

  // ----- Loads -----

  /** After a run that creates and renames into directories only, a load finds exactly the record that was
      saved if and only if its lengths fit the format. */
  lemma LoadsAreExact(hash: bytes -> bytes, run: seq<Label>, trace: seq<World>, e: Env, key: bytes)
    requires IsTrace(hash, run, trace) && |run| < MAX_UINT64 as int
    requires forall i :: 0 <= i < |run| ==> InDirectory(trace[i], run[i])
    requires StandsFor(e, trace[|run|].shared) && key in trace[|run|].shared.store
    ensures key in e.meta && e.meta[key].version == trace[|run|].shared.store[key].version
    ensures Restore(e.meta[key].value) == Fine(trace[|run|].shared.store[key].value) <==> NodeCodec.Fits(trace[|run|].shared.store[key].value)
  {
    hide Step, InDirectory, Restore, NodeCodec.Fits, IsImage, ClientDirs, IsDirectory;
    TraceDirs(hash, run, trace, |run|);
    LoadsOfDirs(e, trace[|run|].shared, key);
  }

  lemma LoadsOfDirs(e: Env, sh: Shared, key: bytes)
    requires StandsFor(e, sh) && StoreDirs(sh.store) && key in sh.store
    ensures key in e.meta && e.meta[key].version == sh.store[key].version
    ensures Restore(e.meta[key].value) == Fine(sh.store[key].value) <==> NodeCodec.Fits(sh.store[key].value)
  {
    hide Restore, NodeCodec.Fits, IsImage, IsDirectory;
    LoadsAgree(e.meta, sh.store, key);
  }
}
