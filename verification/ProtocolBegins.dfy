/** The beginnings of the operations keep what holds of their client. */
module ProtocolBegins {
  import opened Types
  import opened NodeCodec
  import opened Storage
  import opened NodeSpec
  import opened Protocol
  import opened ProtocolInv
  import opened ProtocolOps

  /** What begins is right if it makes one node dirty, or leaves it as it is. */
  lemma DirtyBeginKeeps(c: Client, p: NodeId, n: Node, locked: set<NodeId>, undo: Undo, sh: Shared, count: nat)
    requires ClientOk(c, sh, count) && CanLock(c, p, locked)
    requires n == c.nodes[p].(a := n.a, children := n.children)
    requires n.a.key == c.nodes[p].a.key && n.a.version == c.nodes[p].a.version && n.a.reloadMetadata == c.nodes[p].a.reloadMetadata
    requires n == c.nodes[p] || (n.a.saveMetadata && IsLoaded(p, n) && (p == ROOT || n.a.mode <= 0xffff))
    requires forall name :: name in n.children ==> name in c.nodes[p].children && n.children[name] == c.nodes[p].children[name]
    requires undo.Relink? ==> undo.name in c.nodes[p].children && c.nodes[p].children[undo.name] == undo.child
    requires !undo.Uncreate?
    requires UndoOk(Begun(c, p, n, locked, undo), p, Thread([p], false, undo), sh.store)
    ensures ClientOk(Begun(c, p, n, locked, undo), sh, count)
  {
    hide ClientOk, NodeOk, UndoOk, LinksOf, Kids, Coherent;
    ShapeOf(c, sh, count);
    AnyNode(c, p, sh, count);
    KidsAreAll(c, p);
    NodeFacts(p, c.nodes[p], Links(c, p), sh, count);
    FewerLinks(c.nodes, n.children, c.nodes[p].children, sh.store);
    if n != c.nodes[p] {
      DirtyOk(p, c.nodes[p], n, Links(c, p), LinksOf(c.nodes, n.children), sh, count);
    }
    BeginKeeps(c, p, n, locked, undo, sh, count);
  }

  /** A node that is not locked has no operation in progress. */
  lemma ShapeOf(c: Client, sh: Shared, count: nat)
    requires ClientOk(c, sh, count)
    ensures NodesOk(c, sh, count) && Shape(c) && forall p :: p in c.threads ==> p in c.locks
  {
  }

  lemma FewerLinks(nodes: map<NodeId, Node>, fewer: map<bytes, NodeId>, children: map<bytes, NodeId>, store: map<bytes, Entry<Record>>)
    requires forall name :: name in fewer ==> name in children && fewer[name] == children[name]
    requires Stored(LinksOf(nodes, children), store)
    ensures Stored(LinksOf(nodes, fewer), store)
  {
    var before, after := LinksOf(nodes, children), LinksOf(nodes, fewer);
    assert forall name :: name in after ==> name in before && after[name] == before[name];
  }

  lemma SetxattrKeeps(c: Client, p: NodeId, attr: bytes, value: bytes, sh: Shared, count: nat)
    requires ClientOk(c, sh, count) && CanBegin(c, sh.store, p, Setxattr(attr, value))
    ensures ClientOk(Begin(c, sh.store, p, Setxattr(attr, value)), sh, count)
  {
    hide ClientOk, NodeOk;
    ShapeOf(c, sh, count);
    AnyNode(c, p, sh, count);
    NodeFacts(p, c.nodes[p], Links(c, p), sh, count);
    var a := c.nodes[p].a;
    var was := if attr in a.xattrs then Some(a.xattrs[attr]) else None;
    DirtyBeginKeeps(c, p, c.nodes[p].(a := a.(xattrs := a.xattrs[attr := value], saveMetadata := true)), {p}, Xattr(attr, was), sh, count);
  }

  lemma ChangedFields(a: Attrs, change: Change, resized: bytes, now: int64)
    ensures var b := Changed(a, change, resized, now);
      && b.key == a.key && b.version == a.version && b.reloadMetadata == a.reloadMetadata && b.saveMetadata
      && b.mode == if change.mode.Some? then Chmod(a.mode, change.mode.value) else a.mode
  {
  }

  lemma SetattrKeeps(c: Client, p: NodeId, change: Change, resized: bytes, now: int64, sh: Shared, count: nat)
    requires ClientOk(c, sh, count) && CanBegin(c, sh.store, p, Setattr(change, resized, now))
    ensures ClientOk(Begin(c, sh.store, p, Setattr(change, resized, now)), sh, count)
  {
    hide ClientOk, NodeOk, Chmod, Changed;
    ChangedFields(c.nodes[p].a, change, resized, now);
    ShapeOf(c, sh, count);
    AnyNode(c, p, sh, count);
    NodeFacts(p, c.nodes[p], Links(c, p), sh, count);
    var a := c.nodes[p].a;
    if p != ROOT && change.mode.Some? { ChmodFits(a.mode, change.mode.value); }
    DirtyBeginKeeps(c, p, c.nodes[p].(a := Changed(a, change, resized, now)), {p}, Attributes(change, a), sh, count);
  }

  lemma FlushKeeps(c: Client, p: NodeId, sh: Shared, count: nat)
    requires ClientOk(c, sh, count) && CanBegin(c, sh.store, p, Flush)
    ensures ClientOk(Begin(c, sh.store, p, Flush), sh, count)
  {
    hide ClientOk;
    assert c.nodes[p := c.nodes[p]] == c.nodes;
    assert c.(nodes := c.nodes[p := c.nodes[p]]) == c;
    DirtyBeginKeeps(c, p, c.nodes[p], {p}, Unflush(c.nodes[p].a.contentKey), sh, count);
  }

  function WithoutChild(n: Node, name: bytes): Node {
    n.(a := n.a.(saveMetadata := true), children := n.children - {name})
  }

  lemma ChildKeyStored(c: Client, p: NodeId, name: bytes, sh: Shared, count: nat)
    requires ClientOk(c, sh, count) && p in c.nodes && p !in c.locks && name in c.nodes[p].children
    ensures var x := c.nodes[p].children[name]; KeyAt(c.nodes, x) in sh.store && x in c.nodes && x != p && x != ROOT
  {
    hide NodeOk, OneSlotEach, ThreadsOk;
    ShapeOf(c, sh, count);
    AnyNode(c, p, sh, count);
    KidsAreAll(c, p);
    NodeFacts(p, c.nodes[p], Links(c, p), sh, count);
    assert Holds(c, p, name, c.nodes[p].children[name]);
    assert LinksOf(c.nodes, c.nodes[p].children)[name] in sh.store;
  }

  /** Rmdir and Unlink. */
  lemma RemoveKeeps(c: Client, p: NodeId, name: bytes, locked: set<NodeId>, undo: Undo, sh: Shared, count: nat)
    requires ClientOk(c, sh, count) && CanLock(c, p, locked)
    requires undo == if name in c.nodes[p].children then Relink(name, c.nodes[p].children[name]) else Nothing
    ensures ClientOk(Open(Mark(WithChildren(c, p, c.nodes[p].children - {name}), p), p, locked, [p], undo), sh, count)
  {
    hide ClientOk, NodeOk, Mark, WithChildren, Open;
    ShapeOf(c, sh, count);
    AnyNode(c, p, sh, count);
    NodeFacts(p, c.nodes[p], Links(c, p), sh, count);
    var n := WithoutChild(c.nodes[p], name);
    if name in c.nodes[p].children { ChildKeyStored(c, p, name, sh, count); }
    MarkedWithoutChild(c, p, name);
    RemoveUndo(c, p, n, name, locked, undo, sh.store);
    hide Begun;
    DirtyBeginKeeps(c, p, n, locked, undo, sh, count);
  }

  lemma MarkedWithoutChild(c: Client, p: NodeId, name: bytes)
    requires p in c.nodes
    ensures Mark(WithChildren(c, p, c.nodes[p].children - {name}), p) == c.(nodes := c.nodes[p := WithoutChild(c.nodes[p], name)])
  {
    assert Mark(WithChildren(c, p, c.nodes[p].children - {name}), p).nodes == c.nodes[p := WithoutChild(c.nodes[p], name)];
  }

  lemma RemoveUndo(c: Client, p: NodeId, n: Node, name: bytes, locked: set<NodeId>, undo: Undo, store: map<bytes, Entry<Record>>)
    requires p in c.nodes && n == WithoutChild(c.nodes[p], name)
    requires undo == if name in c.nodes[p].children then Relink(name, c.nodes[p].children[name]) else Nothing
    requires undo.Relink? ==> KeyAt(c.nodes, undo.child) in store && undo.child in c.nodes && undo.child != p
    ensures UndoOk(Begun(c, p, n, locked, undo), p, Thread([p], false, undo), store)
  {
  }

  // ----- Create, Mkdir, Symlink -----

  /** What BeginCreate does, in a flat form. */
  ghost predicate Creates(c: Client, d: Client, p: NodeId, name: bytes, child: NodeId) {
    && Free(c, p) && name !in c.nodes[p].children && child !in c.nodes
    && d.nodes.Keys == c.nodes.Keys + {child}
    && d.locks == (map x | x in c.locks.Keys + {p, child} :: if x in {p, child} then p else c.locks[x])
    && d.threads == c.threads[p := Thread([child, p], false, Uncreate(name))]
    && (forall k :: k in d.known ==> d.known[k] == child || (k in c.known && d.known[k] == c.known[k]))
    && (d.nodes[p].(a := c.nodes[p].a) == c.nodes[p].(children := c.nodes[p].children[name := child]))
    && (d.nodes[p].a == c.nodes[p].a || d.nodes[p].a == c.nodes[p].a.(saveMetadata := true))
    && (forall x :: x in c.nodes && x != p ==> d.nodes[x] == c.nodes[x])
  }

  lemma CreateKeeps(c: Client, d: Client, p: NodeId, name: bytes, child: NodeId, sh: Shared, count: nat)
    requires ClientOk(c, sh, count) && Creates(c, d, p, name, child)
    requires IsNew(d, child)
    ensures ClientOk(d, sh, count)
  {
    hide NodesOk, NodeOk, Shape, OneSlotEach, ThreadsOk, Untouched, Links, LinksOf, SameFor, KeysStay, ThreadOk, Creates, IsNew;
    ShapeOf(c, sh, count);
    CreateDomains(c, d, p, name, child);
    CreateShape(c, d, p, name, child);
    CreateParent(c, d, p, name, child, sh, count);
    CreateChild(c, d, p, name, child, sh, count);
    forall x | x in d.nodes && x != p && x != child ensures Untouched(c, d, x) { CreateOther(c, d, p, name, child, x); }
    NodesFrame(c, d, sh, count, {p, child});
    forall q | q in c.threads && q != p ensures SameFor(c, d, q) { CreateSame(c, d, p, name, child, q); }
    CreateThread(c, d, p, name, child, sh.store);
    KeysStayStored(c, d, sh.store);
    ThreadsFrame(c, d, sh.store, {p});
  }

  /** What Create, Mkdir and Symlink put into their directory. */
  predicate IsNew(d: Client, child: NodeId) {
    && child in d.nodes
    && var n := d.nodes[child];
       n.a.saveMetadata && n.origin == Origin(n.a.key, 0) && n.children == map[] && n.a.version == 0 && n.a.mode <= 0xffff && n.a.key != ROOT_KEY
  }

  lemma CreateDomains(c: Client, d: Client, p: NodeId, name: bytes, child: NodeId)
    requires Creates(c, d, p, name, child)
    ensures d.nodes.Keys == c.nodes.Keys + {child} && d.threads.Keys == c.threads.Keys + {p} && KeysStay(c, d)
    ensures p in c.nodes && child !in c.nodes && p !in c.locks
  {
  }

  lemma CreateShape(c: Client, d: Client, p: NodeId, name: bytes, child: NodeId)
    requires Shape(c) && OneSlotEach(c) && Creates(c, d, p, name, child) && IsNew(d, child)
    ensures Shape(d) && OneSlotEach(d)
  {
    hide Creates, Holds, IsNew;
    forall q, m, x | Holds(d, q, m, x) ensures Holds(c, q, m, x) || (q == p && m == name && x == child) {
      CreateSlots(c, d, p, name, child, q, m, x);
    }
    CreateLocks(c, d, p, name, child);
  }

  lemma CreateSlots(c: Client, d: Client, p: NodeId, name: bytes, child: NodeId, q: NodeId, m: bytes, x: NodeId)
    requires Creates(c, d, p, name, child) && IsNew(d, child) && Holds(d, q, m, x) && Shape(c)
    ensures Holds(c, q, m, x) || (q == p && m == name && x == child)
  {
  }

  lemma CreateLocks(c: Client, d: Client, p: NodeId, name: bytes, child: NodeId)
    requires Shape(c) && Creates(c, d, p, name, child)
    ensures d.nodes.Keys == c.nodes.Keys + {child} && child !in c.nodes && p != child
    ensures forall y :: y in d.locks ==> y in d.nodes && d.locks[y] in d.threads
    ensures forall y :: y in d.threads ==> y in d.nodes && y in d.locks && d.locks[y] == y
    ensures forall k :: k in d.known ==> d.known[k] in d.nodes
  {
    hide Holds;
  }

  lemma CreateParent(c: Client, d: Client, p: NodeId, name: bytes, child: NodeId, sh: Shared, count: nat)
    requires Creates(c, d, p, name, child) && NodesOk(c, sh, count) && Shape(c)
    ensures p in d.nodes && NodeOk(p, d.nodes[p], Links(d, p), sh, count)
  {
    hide NodesOk, NodeOk, Creates, Shape, Links;
    CreateParentNode(c, d, p, name, child);
    CreateLinks(c, d, p, name, child);
    AnyNode(c, p, sh, count);
    NodeFacts(p, c.nodes[p], Links(c, p), sh, count);
    if d.nodes[p].a == c.nodes[p].a {
      SameAttrsOk(p, c.nodes[p], d.nodes[p], Links(c, p), sh, count);
    } else {
      DirtyOk(p, c.nodes[p], d.nodes[p], Links(c, p), Links(c, p), sh, count);
    }
  }

  lemma SameAttrsOk(id: NodeId, n: Node, n': Node, links: map<bytes, Key>, sh: Shared, count: nat)
    requires NodeOk(id, n, links, sh, count) && IsLoaded(id, n) && n'.a == n.a && n'.origin == n.origin
    ensures NodeOk(id, n', links, sh, count)
  {
  }

  lemma CreateParentNode(c: Client, d: Client, p: NodeId, name: bytes, child: NodeId)
    requires Creates(c, d, p, name, child)
    ensures p in c.nodes && p in d.nodes
    ensures d.nodes[p].a == c.nodes[p].a || d.nodes[p].a == c.nodes[p].a.(saveMetadata := true)
    ensures d.nodes[p].origin == c.nodes[p].origin && IsLoaded(p, c.nodes[p])
  {
  }

  lemma CreateLinks(c: Client, d: Client, p: NodeId, name: bytes, child: NodeId)
    requires Creates(c, d, p, name, child) && Shape(c)
    ensures p in c.nodes && p in d.nodes && Links(d, p) == Links(c, p)
  {
    CreateKids(c, d, p, name, child);
    CreateDomains(c, d, p, name, child);
    hide Kids, Creates;
    forall m | m in c.nodes[p].children ensures c.nodes[p].children[m] in c.nodes {
      assert Holds(c, p, m, c.nodes[p].children[m]);
    }
  }

  lemma CreateKids(c: Client, d: Client, p: NodeId, name: bytes, child: NodeId)
    requires Creates(c, d, p, name, child) && Shape(c)
    ensures p in c.nodes && p in d.nodes && Kids(d, p) == Kids(c, p) == c.nodes[p].children
  {
    assert p !in c.threads;
  }

  lemma CreateChild(c: Client, d: Client, p: NodeId, name: bytes, child: NodeId, sh: Shared, count: nat)
    requires Creates(c, d, p, name, child) && Shape(c) && IsNew(d, child)
    ensures child in d.nodes && NodeOk(child, d.nodes[child], Links(d, child), sh, count)
  {
    assert Kids(d, child) == map[];
    assert Links(d, child) == map[];
  }

  lemma CreateOther(c: Client, d: Client, p: NodeId, name: bytes, child: NodeId, x: NodeId)
    requires Creates(c, d, p, name, child) && x in c.nodes && x != p && Shape(c)
    ensures Untouched(c, d, x)
  {
    forall m | m in c.nodes[x].children ensures c.nodes[x].children[m] in c.nodes {
      assert Holds(c, x, m, c.nodes[x].children[m]);
    }
  }

  lemma CreateSame(c: Client, d: Client, p: NodeId, name: bytes, child: NodeId, q: NodeId)
    requires Shape(c) && Creates(c, d, p, name, child) && q in c.threads && q != p
    ensures SameFor(c, d, q)
  {
    hide SameState, Holds;
    assert c.locks[q] == q;
    forall m | m in c.nodes && m in c.locks && c.locks[m] == q ensures SameState(m, c.nodes[m], d.nodes[m]) {
      SameStateRefl(m, c.nodes[m]);
    }
  }

  lemma CreateThread(c: Client, d: Client, p: NodeId, name: bytes, child: NodeId, store: map<bytes, Entry<Record>>)
    requires Creates(c, d, p, name, child) && IsNew(d, child)
    ensures p in d.threads && ThreadOk(d, p, store)
  {
    hide Creates;
    CreateThreadFacts(c, d, p, name, child);
  }

  lemma CreateThreadFacts(c: Client, d: Client, p: NodeId, name: bytes, child: NodeId)
    requires Creates(c, d, p, name, child) && IsNew(d, child)
    ensures p in d.threads && d.threads[p] == Thread([child, p], false, Uncreate(name))
    ensures p in d.nodes && name in d.nodes[p].children && d.nodes[p].children[name] == child
    ensures Held(d, p, p) && Held(d, p, child)
  {
  }

  lemma BeginCreateKeeps(c: Client, p: NodeId, name: bytes, kind: Kind, child: NodeId, key: Key, mode: uint16, now: int64, target: bytes, sh: Shared, count: nat)
    requires ClientOk(c, sh, count) && CanBegin(c, sh.store, p, Create(name, kind, child, key, mode, now, target))
    ensures ClientOk(Begin(c, sh.store, p, Create(name, kind, child, key, mode, now, target)), sh, count)
  {
    hide ClientOk, BeginCreate;
    BeginCreateIs(c, p, name, kind, child, key, NewChild(kind, key, mode, now, target));
    CreateKeeps(c, Begin(c, sh.store, p, Create(name, kind, child, key, mode, now, target)), p, name, child, sh, count);
  }

  lemma BeginCreateIs(c: Client, p: NodeId, name: bytes, kind: Kind, child: NodeId, key: Key, n: Node)
    requires Free(c, p) && name !in c.nodes[p].children && child !in c.nodes
    ensures var d := BeginCreate(c, p, name, kind, child, key, n);
      Creates(c, d, p, name, child) && child in d.nodes && d.nodes[child] == n
  {
    assert BeginCreate(c, p, name, kind, child, key, n).nodes.Keys == c.nodes.Keys + {child};
  }

  // ----- Rename -----

  /** What BeginRename does, in a flat form. */
  ghost predicate Renames(c: Client, d: Client, p: NodeId, name: bytes, x: NodeId, to: NodeId, newName: bytes) {
    && Free(c, p) && Free(c, x) && Free(c, to) && x != to && x != p
    && name in c.nodes[p].children && c.nodes[p].children[name] == x
    && d.nodes.Keys == c.nodes.Keys && d.known == c.known
    && d.locks == (map y | y in c.locks.Keys + {p, x, to} :: if y in {p, x, to} then p else c.locks[y])
    && d.threads == c.threads[p := Thread([x, to, p], false, Nothing)]
    && (forall y :: y in {p, x, to} ==> d.nodes[y].a == c.nodes[y].a.(saveMetadata := true) && d.nodes[y].origin == c.nodes[y].origin)
    && d.nodes[x].children == c.nodes[x].children
    && d.nodes[p].children == (if to == p then c.nodes[p].children[newName := x] else c.nodes[p].children) - {name}
    && (to != p ==> d.nodes[to].children == c.nodes[to].children[newName := x])
    && (forall y :: y in c.nodes && y !in {p, x, to} ==> d.nodes[y] == c.nodes[y])
  }

  lemma BeginRenameIs(c: Client, p: NodeId, name: bytes, to: NodeId, newName: bytes)
    requires Free(c, p) && Free(c, to) && name in c.nodes[p].children
    requires var x := c.nodes[p].children[name]; Free(c, x) && x != to && x != p
    ensures Renames(c, BeginRename(c, p, name, to, newName), p, name, c.nodes[p].children[name], to, newName)
  {
    hide BeginRename;
    RenamedNodes(c, p, name, to, newName);
    RenamedRest(c, p, name, to, newName);
  }

  lemma RenamedRest(c: Client, p: NodeId, name: bytes, to: NodeId, newName: bytes)
    requires p in c.nodes && to in c.nodes && name in c.nodes[p].children && c.nodes[p].children[name] in c.nodes
    ensures var d, x := BeginRename(c, p, name, to, newName), c.nodes[p].children[name];
      && d.known == c.known
      && d.locks == (map y | y in c.locks.Keys + {p, x, to} :: if y in {p, x, to} then p else c.locks[y])
      && d.threads == c.threads[p := Thread([x, to, p], false, Nothing)]
  {
  }

  lemma RenamedNodes(c: Client, p: NodeId, name: bytes, to: NodeId, newName: bytes)
    requires p in c.nodes && to in c.nodes && name in c.nodes[p].children && c.nodes[p].children[name] in c.nodes
    requires c.nodes[p].children[name] != p && c.nodes[p].children[name] != to
    ensures var d, x := BeginRename(c, p, name, to, newName), c.nodes[p].children[name];
      && d.nodes.Keys == c.nodes.Keys
      && d.nodes[x] == c.nodes[x].(a := c.nodes[x].a.(saveMetadata := true))
      && d.nodes[p] == c.nodes[p].(a := c.nodes[p].a.(saveMetadata := true),
           children := (if to == p then c.nodes[p].children[newName := x] else c.nodes[p].children) - {name})
      && (to != p ==> d.nodes[to] == c.nodes[to].(a := c.nodes[to].a.(saveMetadata := true), children := c.nodes[to].children[newName := x]))
      && (forall y :: y in c.nodes && y !in {p, x, to} ==> d.nodes[y] == c.nodes[y])
  {
    hide Open;
    OpenNodes();
  }

  lemma OpenNodes()
    ensures forall c, p, locked, todo, undo :: Open(c, p, locked, todo, undo).nodes == c.nodes
  {
  }

  lemma RenameKeeps(c: Client, d: Client, p: NodeId, name: bytes, x: NodeId, to: NodeId, newName: bytes, sh: Shared, count: nat)
    requires ClientOk(c, sh, count) && Renames(c, d, p, name, x, to, newName)
    ensures ClientOk(d, sh, count)
  {
    hide NodesOk, NodeOk, Shape, OneSlotEach, ThreadsOk, Untouched, Links, LinksOf, SameFor, KeysStay, ThreadOk, Renames;
    RenameDomains(c, d, p, name, x, to, newName);
    RenameShape(c, d, p, name, x, to, newName);
    forall y | y in {p, x, to} ensures y in d.nodes && NodeOk(y, d.nodes[y], Links(d, y), sh, count) {
      RenameNode(c, d, p, name, x, to, newName, y, sh, count);
    }
    forall y | y in d.nodes && y !in {p, x, to} ensures Untouched(c, d, y) { RenameOther(c, d, p, name, x, to, newName, y); }
    NodesFrame(c, d, sh, count, {p, x, to});
    forall q | q in c.threads && q != p ensures SameFor(c, d, q) { RenameSame(c, d, p, name, x, to, newName, q); }
    RenameThread(c, d, p, name, x, to, newName, sh.store);
    KeysStayStored(c, d, sh.store);
    ThreadsFrame(c, d, sh.store, {p});
  }

  lemma RenameDomains(c: Client, d: Client, p: NodeId, name: bytes, x: NodeId, to: NodeId, newName: bytes)
    requires Renames(c, d, p, name, x, to, newName)
    ensures d.nodes.Keys == c.nodes.Keys && d.threads.Keys == c.threads.Keys + {p} && KeysStay(c, d)
  {
  }

  lemma RenameShape(c: Client, d: Client, p: NodeId, name: bytes, x: NodeId, to: NodeId, newName: bytes)
    requires Shape(c) && OneSlotEach(c) && Renames(c, d, p, name, x, to, newName)
    ensures Shape(d) && OneSlotEach(d)
  {
    assert Holds(c, p, name, x);
    forall q, m, y | Holds(d, q, m, y) ensures (y != x && Holds(c, q, m, y)) || (y == x && q == to && m == newName) {
      RenameSlots(c, d, p, name, x, to, newName, q, m, y);
    }
    hide Holds, Renames;
    RenameLocks(c, d, p, name, x, to, newName);
  }

  lemma RenameSlots(c: Client, d: Client, p: NodeId, name: bytes, x: NodeId, to: NodeId, newName: bytes, q: NodeId, m: bytes, y: NodeId)
    requires OneSlotEach(c) && Renames(c, d, p, name, x, to, newName) && Holds(d, q, m, y)
    requires Shape(c)
    ensures (y != x && Holds(c, q, m, y)) || (y == x && q == to && m == newName)
  {
    assert Holds(c, p, name, x);
    if !(y == x && q == to && m == newName) {
      assert Holds(c, q, m, y);
    }
  }

  lemma RenameLocks(c: Client, d: Client, p: NodeId, name: bytes, x: NodeId, to: NodeId, newName: bytes)
    requires Shape(c) && Renames(c, d, p, name, x, to, newName)
    ensures d.nodes.Keys == c.nodes.Keys && x in c.nodes && x != ROOT && x != to
    ensures forall y :: y in d.locks ==> y in d.nodes && d.locks[y] in d.threads
    ensures forall y :: y in d.threads ==> y in d.nodes && y in d.locks && d.locks[y] == y
    ensures d.known == c.known
  {
    assert Holds(c, p, name, x);
  }

  lemma RenameNode(c: Client, d: Client, p: NodeId, name: bytes, x: NodeId, to: NodeId, newName: bytes, y: NodeId, sh: Shared, count: nat)
    requires ClientOk(c, sh, count) && Renames(c, d, p, name, x, to, newName) && y in {p, x, to}
    ensures y in d.nodes && NodeOk(y, d.nodes[y], Links(d, y), sh, count)
  {
    hide ClientOk, NodesOk, NodeOk, Shape, OneSlotEach, ThreadsOk, Links;
    ShapeOf(c, sh, count);
    AnyNode(c, y, sh, count);
    NodeFacts(y, c.nodes[y], Links(c, y), sh, count);
    AnyNode(c, x, sh, count);
    NodeFacts(x, c.nodes[x], Links(c, x), sh, count);
    ChildKeyStored(c, p, name, sh, count);
    KidsAreAll(c, y);
    RenameLinks(c, d, p, name, x, to, newName, y, sh.store);
    DirtyOk(y, c.nodes[y], d.nodes[y], Links(c, y), Links(d, y), sh, count);
  }

  lemma RenameLinks(c: Client, d: Client, p: NodeId, name: bytes, x: NodeId, to: NodeId, newName: bytes, y: NodeId, store: map<bytes, Entry<Record>>)
    requires Renames(c, d, p, name, x, to, newName) && y in {p, x, to}
    requires KeyAt(c.nodes, x) in store && KeyAt(c.nodes, x) != ROOT_KEY
    requires Stored(LinksOf(c.nodes, c.nodes[y].children), store)
    ensures Stored(Links(d, y), store)
  {
    RenameDomains(c, d, p, name, x, to, newName);
    var before, after := LinksOf(c.nodes, c.nodes[y].children), Links(d, y);
    forall m | m in after ensures after[m] in store && after[m] != ROOT_KEY {
      RenameLink(c, d, p, name, x, to, newName, y, m);
      if d.nodes[y].children[m] != x { assert m in before; }
    }
  }

  lemma RenameLink(c: Client, d: Client, p: NodeId, name: bytes, x: NodeId, to: NodeId, newName: bytes, y: NodeId, m: bytes)
    requires Renames(c, d, p, name, x, to, newName) && y in {p, x, to}
    ensures m in Links(d, y) ==> (
      && m in d.nodes[y].children && Links(d, y)[m] == KeyAt(c.nodes, d.nodes[y].children[m])
      && (d.nodes[y].children[m] == x || (m in c.nodes[y].children && c.nodes[y].children[m] == d.nodes[y].children[m])))
  {
  }

  lemma RenameOther(c: Client, d: Client, p: NodeId, name: bytes, x: NodeId, to: NodeId, newName: bytes, y: NodeId)
    requires Renames(c, d, p, name, x, to, newName) && y in c.nodes && y !in {p, x, to}
    ensures Untouched(c, d, y)
  {
  }

  lemma RenameSame(c: Client, d: Client, p: NodeId, name: bytes, x: NodeId, to: NodeId, newName: bytes, q: NodeId)
    requires Shape(c) && Renames(c, d, p, name, x, to, newName) && q in c.threads && q != p
    ensures SameFor(c, d, q)
  {
    hide SameState, Holds;
    assert c.locks[q] == q;
    forall m | m in c.nodes && m in c.locks && c.locks[m] == q ensures SameState(m, c.nodes[m], d.nodes[m]) {
      SameStateRefl(m, c.nodes[m]);
    }
  }

  lemma RenameThread(c: Client, d: Client, p: NodeId, name: bytes, x: NodeId, to: NodeId, newName: bytes, store: map<bytes, Entry<Record>>)
    requires Renames(c, d, p, name, x, to, newName)
    ensures p in d.threads && ThreadOk(d, p, store)
  {
  }

  // ----- Any operation -----

  lemma AnyBeginKeeps(c: Client, p: NodeId, op: Op, sh: Shared, count: nat)
    requires ClientOk(c, sh, count) && CanBegin(c, sh.store, p, op)
    ensures ClientOk(Begin(c, sh.store, p, op), sh, count)
  {
    hide ClientOk, Open, Mark, WithChildren, BeginCreate, BeginRename, Changed;
    match op
    case Setxattr(attr, value) => SetxattrKeeps(c, p, attr, value, sh, count);
    case Setattr(change, resized, now) => SetattrKeeps(c, p, change, resized, now, sh, count);
    case Flush => FlushKeeps(c, p, sh, count);
    case Rmdir(name) =>
      RemoveKeeps(c, p, name, {p, c.nodes[p].children[name]}, Relink(name, c.nodes[p].children[name]), sh, count);
    case Unlink(name) =>
      RemoveKeeps(c, p, name, {p}, if name in c.nodes[p].children then Relink(name, c.nodes[p].children[name]) else Nothing, sh, count);
    case Create(name, kind, child, key, mode, now, target) =>
      BeginCreateKeeps(c, p, name, kind, child, key, mode, now, target, sh, count);
    case Rename(name, to, newName) =>
      BeginRenameIs(c, p, name, to, newName);
      RenameKeeps(c, Begin(c, sh.store, p, op), p, name, c.nodes[p].children[name], to, newName, sh, count);
  }
}
