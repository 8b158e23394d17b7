/** The steps of operations keep what holds of their client: beginnings, aborts and ends. */
module ProtocolOps {
  import opened Types
  import opened NodeCodec
  import opened Storage
  import opened NodeSpec
  import opened Protocol
  import opened ProtocolInv

  // ----- Ends -----

  /** One node changes, under its old key, and the operation on it ends. */
  function Ended(c: Client, p: NodeId, n: Node): Client {
    Close(c.(nodes := c.nodes[p := n]), p)
  }

  /** The end of an operation, whether it worked or not, is right if the node is right. */
  lemma EndKeeps(c: Client, p: NodeId, n: Node, sh: Shared, count: nat)
    requires ClientOk(c, sh, count) && p in c.threads && p in c.nodes
    requires n.a.key == c.nodes[p].a.key
    requires forall name :: name in n.children ==> Holds(c, p, name, n.children[name])
    requires NodeOk(p, n, LinksOf(c.nodes, n.children), sh, count)
    ensures ClientOk(Ended(c, p, n), sh, count)
  {
    hide NodesOk, NodeOk, Shape, OneSlotEach, ThreadsOk, Ended, Untouched, Holds, Links, LinksOf, SameFor, KeysStay;
    var d := Ended(c, p, n);
    EndShape(c, p, n);
    EndUntouched(c, p, n);
    NodesFrame(c, d, sh, count, {p});
    forall q | q in d.threads ensures SameFor(c, d, q) { EndSame(c, p, n, q); }
    KeysStayStored(c, d, sh.store);
    ThreadsFrame(c, d, sh.store, {});
  }

  lemma EndUntouched(c: Client, p: NodeId, n: Node)
    requires p in c.nodes && n.a.key == c.nodes[p].a.key
    ensures var d := Ended(c, p, n);
      && p in d.nodes && d.nodes[p] == n && Links(d, p) == LinksOf(c.nodes, n.children) && KeysStay(c, d)
      && forall id :: id in d.nodes && id != p ==> Untouched(c, d, id)
  {
  }

  lemma EndShape(c: Client, p: NodeId, n: Node)
    requires Shape(c) && OneSlotEach(c) && p in c.threads && p in c.nodes
    requires forall name :: name in n.children ==> Holds(c, p, name, n.children[name])
    ensures Shape(Ended(c, p, n)) && OneSlotEach(Ended(c, p, n))
  {
    var d := Ended(c, p, n);
    forall q, name, x | Holds(d, q, name, x) ensures Holds(c, q, name, x) {
    }
    FewerSlots(c, d);
  }

  lemma EndSame(c: Client, p: NodeId, n: Node, q: NodeId)
    requires Shape(c) && p in c.threads && p in c.nodes && q in Ended(c, p, n).threads
    ensures SameFor(c, Ended(c, p, n), q)
  {
    hide Holds, SameState;
    assert q in c.threads && c.locks[q] == q;
    forall m | m in c.nodes && m in c.locks && c.locks[m] == q ensures SameState(m, c.nodes[m], Ended(c, p, n).nodes[m]) {
      SameStateRefl(m, c.nodes[m]);
    }
  }

  lemma SameStateRefl(m: NodeId, n: Node)
    ensures SameState(m, n, n)
  {
  }

  // ----- Beginnings that change one node -----

  function Begun(c: Client, p: NodeId, n: Node, locked: set<NodeId>, undo: Undo): Client {
    Open(c.(nodes := c.nodes[p := n]), p, locked, [p], undo)
  }

  ghost predicate CanLock(c: Client, p: NodeId, locked: set<NodeId>) {
    Free(c, p) && p in locked && forall x :: x in locked ==> x in c.nodes && x !in c.locks
  }

  lemma BeginKeeps(c: Client, p: NodeId, n: Node, locked: set<NodeId>, undo: Undo, sh: Shared, count: nat)
    requires ClientOk(c, sh, count) && CanLock(c, p, locked) && IsLoaded(p, n)
    requires n.a.key == c.nodes[p].a.key && !undo.Uncreate?
    requires forall name, x :: Holds(Begun(c, p, n, locked, undo), p, name, x) ==> Holds(c, p, name, x)
    requires NodeOk(p, n, LinksOf(c.nodes, n.children), sh, count)
    requires UndoOk(Begun(c, p, n, locked, undo), p, Thread([p], false, undo), sh.store)
    ensures ClientOk(Begun(c, p, n, locked, undo), sh, count)
  {
    hide NodesOk, NodeOk, Shape, OneSlotEach, ThreadsOk, Begun, Untouched, Holds, Links, LinksOf, SameFor, KeysStay,
      UndoOk, ThreadOk, CanLock;
    var d := Begun(c, p, n, locked, undo);
    BeginShape(c, p, n, locked, undo);
    BeginUntouched(c, p, n, locked, undo);
    NodesFrame(c, d, sh, count, {p});
    forall q | q in d.threads && q != p ensures SameFor(c, d, q) { BeginSame(c, p, n, locked, undo, q); }
    BeginOwn(c, p, n, locked, undo, sh.store);
    KeysStayStored(c, d, sh.store);
    ThreadsFrame(c, d, sh.store, {p});
  }

  lemma BeginUntouched(c: Client, p: NodeId, n: Node, locked: set<NodeId>, undo: Undo)
    requires CanLock(c, p, locked) && n.a.key == c.nodes[p].a.key && !undo.Uncreate?
    ensures var d := Begun(c, p, n, locked, undo);
      && p in d.nodes && d.nodes[p] == n && Links(d, p) == LinksOf(c.nodes, n.children) && KeysStay(c, d)
      && forall id :: id in d.nodes && id != p ==> Untouched(c, d, id)
  {
  }

  lemma BeginShape(c: Client, p: NodeId, n: Node, locked: set<NodeId>, undo: Undo)
    requires Shape(c) && OneSlotEach(c) && CanLock(c, p, locked)
    requires forall name, x :: Holds(Begun(c, p, n, locked, undo), p, name, x) ==> Holds(c, p, name, x)
    ensures Shape(Begun(c, p, n, locked, undo)) && OneSlotEach(Begun(c, p, n, locked, undo))
  {
    var d := Begun(c, p, n, locked, undo);
    forall q, name, x | Holds(d, q, name, x) ensures Holds(c, q, name, x) {
    }
    FewerSlots(c, d);
  }

  lemma BeginSame(c: Client, p: NodeId, n: Node, locked: set<NodeId>, undo: Undo, q: NodeId)
    requires Shape(c) && CanLock(c, p, locked) && q in Begun(c, p, n, locked, undo).threads && q != p
    ensures SameFor(c, Begun(c, p, n, locked, undo), q)
  {
    hide Holds, IsLoaded, SameState;
    var d := Begun(c, p, n, locked, undo);
    assert q in c.threads && c.locks[q] == q;
    forall m | m in c.nodes && m in c.locks && c.locks[m] == q ensures SameState(m, c.nodes[m], d.nodes[m]) {
      SameStateRefl(m, c.nodes[m]);
    }
  }

  lemma BeginOwn(c: Client, p: NodeId, n: Node, locked: set<NodeId>, undo: Undo, store: map<bytes, Entry<Record>>)
    requires CanLock(c, p, locked) && IsLoaded(p, n)
    requires UndoOk(Begun(c, p, n, locked, undo), p, Thread([p], false, undo), store)
    ensures var d := Begun(c, p, n, locked, undo); p in d.threads && ThreadOk(d, p, store)
  {
    hide UndoOk, IsLoaded;
  }

  // ----- Changes of fields -----

  lemma AttrsKeep(c: Client, id: NodeId, a: Attrs, sh: Shared, count: nat)
    requires ClientOk(c, sh, count) && id in c.nodes && a.key == c.nodes[id].a.key
    requires NodeOk(id, c.nodes[id].(a := a), Links(c, id), sh, count)
    requires ThreadsOk(WithAttrs(c, id, a), sh.store)
    ensures ClientOk(WithAttrs(c, id, a), sh, count)
  {
    hide NodesOk, NodeOk, Shape, OneSlotEach, ThreadsOk, WithAttrs, Untouched, Links;
    AttrsUntouched(c, id, a);
    AttrsShape(c, id, a);
    NodesFrame(c, WithAttrs(c, id, a), sh, count, {id});
  }

  lemma AttrsUntouched(c: Client, id: NodeId, a: Attrs)
    requires id in c.nodes && a.key == c.nodes[id].a.key
    ensures var d := WithAttrs(c, id, a);
      && d.nodes.Keys == c.nodes.Keys && d.nodes[id] == c.nodes[id].(a := a) && Links(d, id) == Links(c, id)
      && KeysStay(c, d) && d.threads == c.threads
      && forall x :: x in d.nodes && x != id ==> Untouched(c, d, x)
  {
  }

  lemma AttrsShape(c: Client, id: NodeId, a: Attrs)
    requires Shape(c) && OneSlotEach(c) && id in c.nodes
    ensures Shape(WithAttrs(c, id, a)) && OneSlotEach(WithAttrs(c, id, a))
  {
    var d := WithAttrs(c, id, a);
    forall q, name, x | Holds(d, q, name, x) ensures Holds(c, q, name, x) {
    }
    FewerSlots(c, d);
  }

  lemma AttrsSame(c: Client, id: NodeId, a: Attrs, q: NodeId)
    requires Shape(c) && id in c.nodes && q in c.threads
    requires id !in c.locks || c.locks[id] != q || SameState(id, c.nodes[id], c.nodes[id].(a := a))
    ensures SameFor(c, WithAttrs(c, id, a), q)
  {
    hide Holds, SameState;
    var d := WithAttrs(c, id, a);
    forall m | m in c.nodes && m in c.locks && c.locks[m] == q ensures SameState(m, c.nodes[m], d.nodes[m]) {
      SameStateRefl(m, c.nodes[m]);
    }
  }

  /** A change that no operation notices. */
  lemma QuietAttrsKeep(c: Client, id: NodeId, a: Attrs, sh: Shared, count: nat)
    requires ClientOk(c, sh, count) && id in c.nodes && a.key == c.nodes[id].a.key
    requires NodeOk(id, c.nodes[id].(a := a), Links(c, id), sh, count)
    requires id !in c.locks || SameState(id, c.nodes[id], c.nodes[id].(a := a))
    ensures ClientOk(WithAttrs(c, id, a), sh, count)
  {
    hide NodesOk, NodeOk, Shape, OneSlotEach, ThreadsOk, WithAttrs, Links, SameFor, KeysStay, SameState;
    AttrsUntouched(c, id, a);
    forall q | q in c.threads ensures SameFor(c, WithAttrs(c, id, a), q) { AttrsSame(c, id, a, q); }
    KeysStayStored(c, WithAttrs(c, id, a), sh.store);
    ThreadsFrame(c, WithAttrs(c, id, a), sh.store, {});
    AttrsKeep(c, id, a, sh, count);
  }

  // ----- Failures -----

  /** What a failed sync may leave behind in the node that it was for. */
  predicate FailedAttrs(a: Attrs, b: Attrs) {
    && b == a.(contentKey := b.contentKey, reloadMetadata := b.reloadMetadata)
    && (a.reloadMetadata ==> b.reloadMetadata)
    && (a.saveMetadata || (a.saveContent && b.reloadMetadata == a.reloadMetadata))
  }

  lemma ChmodFits(old_: uint32, mode: uint32)
    requires old_ <= 0xffff
    ensures Chmod(old_, mode) <= 0xffff
  {
  }

  /** A dirty node need not agree with the store. */
  lemma DirtyOk(id: NodeId, n: Node, n': Node, links: map<bytes, Key>, links': map<bytes, Key>, sh: Shared, count: nat)
    requires NodeOk(id, n, links, sh, count) && IsLoaded(id, n')
    requires n'.a.key == n.a.key && n'.a.version == n.a.version && n'.origin == n.origin
    requires n.a.reloadMetadata ==> n'.a.reloadMetadata
    requires n'.a.saveMetadata && (id == ROOT || n'.a.mode <= 0xffff) && Stored(links', sh.store)
    ensures NodeOk(id, n', links', sh, count)
  {
  }

  /** What the operation on p knows about p itself. */
  lemma Own(c: Client, p: NodeId, sh: Shared, count: nat)
    requires ClientOk(c, sh, count) && p in c.threads && p in c.nodes
    ensures var th := c.threads[p];
      && th.todo != [] && (forall m :: m in th.todo ==> m in c.nodes && m in c.locks && c.locks[m] == p && IsLoaded(m, c.nodes[m]))
      && th.todo[|th.todo| - 1] == p && IsLoaded(p, c.nodes[p])
      && UndoOk(c, p, th, sh.store) && NodeOk(p, c.nodes[p], Links(c, p), sh, count)
  {
    hide UndoOk, OneSlotEach, Shape, NodeOk, IsLoaded;
    var th := c.threads[p];
    assert ThreadOk(c, p, sh.store);
    assert th.todo[|th.todo| - 1] in th.todo;
    assert Held(c, p, p);
  }

  /** The node that the operation was called on is next. */
  predicate OwnSync(th: Thread, p: NodeId) {
    th.todo == [p] || (th.undo.Nothing? && th.todo != [] && th.todo[0] == p)
  }

  lemma UndoneHolds(c: Client, p: NodeId)
    requires p in c.threads && p in c.nodes
    ensures var n := UndoneNode(c.nodes[p], c.threads[p].undo);
      forall name :: name in n.children ==> Holds(c, p, name, n.children[name])
  {
  }

  lemma UndoneStored(nodes: map<NodeId, Node>, n: Node, undo: Undo, store: map<bytes, Entry<Record>>)
    requires Stored(LinksOf(nodes, n.children), store)
    requires undo.Relink? ==> KeyAt(nodes, undo.child) in store && KeyAt(nodes, undo.child) != ROOT_KEY
    ensures Stored(LinksOf(nodes, UndoneNode(n, undo).children), store)
  {
    var before, after := LinksOf(nodes, n.children), LinksOf(nodes, UndoneNode(n, undo).children);
    assert forall name :: name in after ==> ((name in before && after[name] == before[name])
      || (undo.Relink? && after[name] == KeyAt(nodes, undo.child)));
  }

  /** The keys of the children that p has after its operation failed. */
  lemma UndoneLinks(c: Client, p: NodeId, sh: Shared, count: nat)
    requires ClientOk(c, sh, count) && p in c.threads && p in c.nodes && OwnSync(c.threads[p], p)
    ensures Stored(LinksOf(c.nodes, UndoneNode(c.nodes[p], c.threads[p].undo).children), sh.store)
  {
    hide OneSlotEach, IsLoaded, NodeOk, Kids, Links, LinksOf, Stored, UndoneNode;
    var th, n := c.threads[p], c.nodes[p];
    Own(c, p, sh, count);
    NodeFacts(p, n, Links(c, p), sh, count);
    KidsAreAll(c, p);
    if th.undo.Relink? {
      var x := th.undo.child;
      assert Holds(c, p, th.undo.name, x);
      NodeFacts(x, c.nodes[x], Links(c, x), sh, count);
    }
    UndoneStored(c.nodes, n, th.undo, sh.store);
  }

  lemma UndoneFields(n: Node, undo: Undo)
    ensures var n' := UndoneNode(n, undo);
      && n'.a.key == n.a.key && n'.a.version == n.a.version && n'.origin == n.origin
      && n'.a.reloadMetadata == n.a.reloadMetadata && n'.a.saveMetadata == n.a.saveMetadata
      && (n'.a.mode == n.a.mode || (undo.Attributes? && n'.a.mode == undo.before.mode))
      && (undo.Unflush? && FailedAttrs(n.a.(contentKey := undo.contentKey), n.a) ==>
            n' == n.(a := n.a.(content := n'.a.content, contentKey := undo.contentKey)))
  {
  }

  /** A clean node is in the hands of nobody but a Flush. */
  lemma OnlyFlushIsClean(c: Client, p: NodeId, sh: Shared, count: nat)
    requires ClientOk(c, sh, count) && p in c.threads && p in c.nodes && OwnSync(c.threads[p], p)
    requires FailedAttrs(c.nodes[p].a, c.nodes[p].a)
    ensures var undo := c.threads[p].undo;
      && (c.nodes[p].a.saveMetadata || (undo.Unflush? && undo.contentKey == c.nodes[p].a.contentKey))
      && (undo.Attributes? ==> p == ROOT || undo.before.mode <= 0xffff)
  {
    hide ClientOk;
    Own(c, p, sh, count);
    assert c.threads[p].todo[0] in c.threads[p].todo;
  }

  /** The node that the operation was called on, after the failure of its own sync. */
  lemma UndoneOk(c: Client, p: NodeId, a: Attrs, sh: Shared, count: nat)
    requires ClientOk(c, sh, count) && p in c.threads && p in c.nodes && OwnSync(c.threads[p], p)
    requires FailedAttrs(c.nodes[p].a, a)
    ensures var n := UndoneNode(c.nodes[p].(a := a), c.threads[p].undo);
      && n.a.key == c.nodes[p].a.key && n.children == UndoneNode(c.nodes[p], c.threads[p].undo).children
      && NodeOk(p, n, LinksOf(c.nodes, n.children), sh, count)
  {
    hide ClientOk, Stored, LinksOf, Links, Kids, Coherent, NodeOk, UndoOk, UndoneNode;
    var th, n := c.threads[p], c.nodes[p];
    var n' := UndoneNode(n.(a := a), th.undo);
    Own(c, p, sh, count);
    UndoneLinks(c, p, sh, count);
    NodeFacts(p, n, Links(c, p), sh, count);
    OnlyFlushIsClean(c, p, sh, count);
    UndoneFields(n.(a := a), th.undo);
    UndoneChildren(n, a, th.undo);
    if n'.a.saveMetadata {
      DirtyOk(p, n, n', Links(c, p), LinksOf(c.nodes, n'.children), sh, count);
    } else {
      KidsAreAll(c, p);
      RefreshedOk(p, n, n', Links(c, p), sh, count);
    }
  }

  lemma UndoneChildren(n: Node, a: Attrs, undo: Undo)
    ensures UndoneNode(n.(a := a), undo).children == UndoneNode(n, undo).children
  {
  }

  lemma AnyNode(c: Client, id: NodeId, sh: Shared, count: nat)
    requires NodesOk(c, sh, count) && id in c.nodes
    ensures NodeOk(id, c.nodes[id], Links(c, id), sh, count)
  {
  }

  lemma NodeFacts(id: NodeId, n: Node, links: map<bytes, Key>, sh: Shared, count: nat)
    requires NodeOk(id, n, links, sh, count)
    ensures IsLoaded(id, n) ==> id == ROOT || n.a.mode <= 0xffff
    ensures (n.a.key == ROOT_KEY <==> id == ROOT) && Stored(links, sh.store)
  {
  }

  lemma KidsAreAll(c: Client, p: NodeId)
    requires p in c.nodes && (p in c.threads ==> !c.threads[p].undo.Uncreate? || |c.threads[p].todo| != 2)
    ensures Links(c, p) == LinksOf(c.nodes, c.nodes[p].children)
  {
  }

  lemma RefreshedOk(id: NodeId, n: Node, n': Node, links: map<bytes, Key>, sh: Shared, count: nat)
    requires NodeOk(id, n, links, sh, count) && IsLoaded(id, n)
    requires n' == n.(a := n.a.(content := n'.a.content, nanos := n'.a.nanos, saveContent := n'.a.saveContent, reloadMetadata := n'.a.reloadMetadata))
    requires n.a.reloadMetadata ==> n'.a.reloadMetadata
    ensures NodeOk(id, n', links, sh, count)
  {
  }

  /** A failed sync of another node than p: only the node itself and then the roll-back. */
  lemma HelperFails(c: Client, p: NodeId, a: Attrs, sh: Shared, count: nat)
    requires ClientOk(c, sh, count) && p in c.threads && p in c.nodes && c.threads[p].todo != []
    requires var m := c.threads[p].todo[0];
      m in c.nodes && m != p && FailedAttrs(c.nodes[m].a, a)
    ensures var m := c.threads[p].todo[0];
      && c.nodes[m].a.saveMetadata && m in c.locks && c.locks[m] == p && IsLoaded(m, c.nodes[m])
      && (c.threads[p].undo.Nothing? || (c.threads[p].undo.Uncreate? && |c.threads[p].todo| == 2))
  {
    hide ClientOk;
    Own(c, p, sh, count);
    assert c.threads[p].todo[0] in c.threads[p].todo;
  }

  lemma HelperAttrsKeep(c: Client, p: NodeId, a: Attrs, sh: Shared, count: nat)
    requires ClientOk(c, sh, count) && p in c.threads && p in c.nodes && c.threads[p].todo != []
    requires var m := c.threads[p].todo[0];
      m in c.nodes && m != p && FailedAttrs(c.nodes[m].a, a)
    ensures ClientOk(WithAttrs(c, c.threads[p].todo[0], a), sh, count)
  {
    hide NodesOk, NodeOk, Shape, OneSlotEach, ThreadsOk, Links, SameFor, KeysStay, ThreadOk;
    var m := c.threads[p].todo[0];
    var d := WithAttrs(c, m, a);
    HelperFails(c, p, a, sh, count);
    AnyNode(c, m, sh, count);
    NodeFacts(m, c.nodes[m], Links(c, m), sh, count);
    DirtyOk(m, c.nodes[m], c.nodes[m].(a := a), Links(c, m), Links(c, m), sh, count);
    AttrsUntouched(c, m, a);
    KeysStayStored(c, d, sh.store);
    forall q | q in c.threads && q != p ensures SameFor(c, d, q) { AttrsSame(c, m, a, q); }
    HelperThread(c, p, a, sh, count);
    ThreadsFrame(c, d, sh.store, {p});
    AttrsKeep(c, m, a, sh, count);
  }

  lemma HelperThread(c: Client, p: NodeId, a: Attrs, sh: Shared, count: nat)
    requires ClientOk(c, sh, count) && p in c.threads && p in c.nodes && c.threads[p].todo != []
    requires var m := c.threads[p].todo[0];
      m in c.nodes && m != p && FailedAttrs(c.nodes[m].a, a)
    ensures ThreadOk(WithAttrs(c, c.threads[p].todo[0], a), p, sh.store)
  {
    hide NodesOk, NodeOk, Shape, OneSlotEach;
    HelperFails(c, p, a, sh, count);
    assert ThreadOk(c, p, sh.store);
    var d := WithAttrs(c, c.threads[p].todo[0], a);
    forall m | m in c.threads[p].todo ensures Held(d, p, m) { assert Held(c, p, m); }
  }

  /** An operation is aborted because the sync of its first node failed. */
  lemma FailKeeps(c: Client, p: NodeId, a: Attrs, sh: Shared, count: nat)
    requires ClientOk(c, sh, count) && p in c.threads && p in c.nodes && c.threads[p].todo != []
    requires c.threads[p].todo[0] in c.nodes && FailedAttrs(c.nodes[c.threads[p].todo[0]].a, a)
    ensures ClientOk(Abort(WithAttrs(c, c.threads[p].todo[0], a), p), sh, count)
  {
    hide ClientOk, UndoneNode, Close, NodeOk, UndoOk, LinksOf, Kids;
    var th := c.threads[p];
    var m := th.todo[0];
    var d := WithAttrs(c, m, a);
    if m == p {
      OwnIsLast(c, p, sh, count);
      var n := UndoneNode(c.nodes[p].(a := a), th.undo);
      UndoneOk(c, p, a, sh, count);
      UndoneHolds(c, p);
      EndKeeps(c, p, n, sh, count);
      EndedTwice(c, p, a, n);
    } else {
      HelperFails(c, p, a, sh, count);
      HelperAttrsKeep(c, p, a, sh, count);
      HelperUndone(d, p, sh, count);
      UndoneHolds(d, p);
      EndKeeps(d, p, UndoneNode(d.nodes[p], th.undo), sh, count);
    }
  }

  lemma EndedTwice(c: Client, p: NodeId, a: Attrs, n: Node)
    requires p in c.threads && p in c.nodes && n == UndoneNode(c.nodes[p].(a := a), c.threads[p].undo)
    ensures Abort(WithAttrs(c, p, a), p) == Ended(c, p, n)
  {
    assert WithAttrs(c, p, a).nodes[p := n] == c.nodes[p := n];
  }

  lemma OwnIsLast(c: Client, p: NodeId, sh: Shared, count: nat)
    requires ClientOk(c, sh, count) && p in c.threads && c.threads[p].todo != [] && c.threads[p].todo[0] == p
    ensures OwnSync(c.threads[p], p)
  {
    hide NodesOk, OneSlotEach;
    assert ThreadOk(c, p, sh.store);
    assert c.threads[p].undo.Uncreate? ==> Holds(c, p, c.threads[p].undo.name, c.nodes[p].children[c.threads[p].undo.name]);
  }

  lemma HelperUndone(c: Client, p: NodeId, sh: Shared, count: nat)
    requires ClientOk(c, sh, count) && p in c.threads && p in c.nodes
    requires c.threads[p].undo.Nothing? || (c.threads[p].undo.Uncreate? && |c.threads[p].todo| == 2)
    ensures var n := UndoneNode(c.nodes[p], c.threads[p].undo);
      && n.a.key == c.nodes[p].a.key
      && NodeOk(p, n, LinksOf(c.nodes, n.children), sh, count)
  {
    hide OneSlotEach, ThreadsOk, Shape, Coherent, Stored;
    assert NodeOk(p, c.nodes[p], Links(c, p), sh, count);
    Own(c, p, sh, count);
  }
}
