/** What holds in every reachable world, and the lemmas by which the steps keep it. */
module ProtocolInv {
  import opened Types
  import opened NodeCodec
  import opened Storage
  import opened NodeSpec
  import opened Protocol

  // ----- Nodes -----

  /** A directory's children without the one that an unfinished Create, Mkdir or Symlink has put
      there and not yet synced. */
  ghost function Kids(c: Client, id: NodeId): map<bytes, NodeId>
    requires id in c.nodes
  {
    if id in c.threads && c.threads[id].undo.Uncreate? && |c.threads[id].todo| == 2
    then c.nodes[id].children - {c.threads[id].undo.name} else c.nodes[id].children
  }

  ghost function Links(c: Client, id: NodeId): map<bytes, Key>
    requires id in c.nodes
  {
    LinksOf(c.nodes, Kids(c, id))
  }

  /** An object that was never filled. */
  predicate Pristine(n: Node) {
    && n.a.version == 0 && n.a.xattrs == map[] && n.a.contentKey == [] && n.children == map[]
    && !n.a.saveMetadata && !n.a.saveContent
  }

  /** The three flags do not keep the node from being in step with the store. */
  predicate IsClean(id: NodeId, n: Node) {
    IsLoaded(id, n) && !n.a.saveMetadata && !n.a.reloadMetadata && n.a.version > 0
  }

  predicate SameButTime(r: Record, s: Record) {
    r.(nanos := 0) == s.(nanos := 0)
  }

  /** The record that was accepted for the node's key at exactly its version says what the node says. */
  ghost predicate Coherent(a: Attrs, links: map<bytes, Key>, sh: Shared) {
    (a.key, a.version) in sh.log && SameButTime(sh.log[(a.key, a.version)].record, RecordOf(a, links))
  }

  predicate Stored(links: map<bytes, Key>, store: map<bytes, Entry<Record>>) {
    forall name :: name in links ==> links[name] in store && links[name] != ROOT_KEY
  }

  /** The version is that of the origin, which the store has; an object under another key than that of
      its origin is flagged. */
  predicate OriginOk(n: Node, store: map<bytes, Entry<Record>>) {
    && n.origin.version == n.a.version <= VersionOf(store, n.origin.key)
    && (n.origin.key != n.a.key ==> n.a.reloadMetadata)
  }

  ghost predicate NodeOk(id: NodeId, n: Node, links: map<bytes, Key>, sh: Shared, count: nat) {
    && (n.a.key == ROOT_KEY <==> id == ROOT)
    && n.a.version <= count
    && OriginOk(n, sh.store)
    && (if IsLoaded(id, n) then id == ROOT || n.a.mode <= 0xffff else Pristine(n))
    && Stored(links, sh.store)
    && (IsClean(id, n) ==> Coherent(n.a, links, sh))
  }

  ghost predicate NodesOk(c: Client, sh: Shared, count: nat) {
    forall id :: id in c.nodes ==> NodeOk(id, c.nodes[id], Links(c, id), sh, count)
  }

  // ----- Locks, threads and slots -----

  /** Directory p has x under this name, or will have it again if its operation fails. */
  predicate Holds(c: Client, p: NodeId, name: bytes, x: NodeId) {
    p in c.nodes && ((name in c.nodes[p].children && c.nodes[p].children[name] == x)
      || (p in c.threads && c.threads[p].undo == Relink(name, x)))
  }

  ghost predicate OneSlotEach(c: Client) {
    forall p, q, m, n, x :: Holds(c, p, m, x) && Holds(c, q, n, x) ==> p == q && m == n
  }

  ghost predicate Shape(c: Client) {
    && ROOT in c.nodes
    && (forall p, name, x :: Holds(c, p, name, x) ==> x in c.nodes && x != ROOT && x != p)
    && (forall x :: x in c.locks ==> x in c.nodes && c.locks[x] in c.threads)
    && (forall p :: p in c.threads ==> p in c.nodes && p in c.locks && c.locks[p] == p)
    && (forall k :: k in c.known ==> c.known[k] in c.nodes)
  }

  /** Node m is in the hands of the operation on p. */
  predicate Held(c: Client, p: NodeId, m: NodeId) {
    m in c.nodes && m in c.locks && c.locks[m] == p && IsLoaded(m, c.nodes[m])
  }

  ghost predicate UndoOk(c: Client, p: NodeId, th: Thread, store: map<bytes, Entry<Record>>)
    requires p in c.nodes && th.todo != [] && forall m :: m in th.todo ==> m in c.nodes
  {
    var n := c.nodes[p];
    match th.undo
    case Nothing => forall m :: m in th.todo ==> c.nodes[m].a.saveMetadata || !c.nodes[m].a.saveContent
    case Xattr(_, _) => th.todo == [p] && n.a.saveMetadata
    case Attributes(_, before) => th.todo == [p] && n.a.saveMetadata && (p == ROOT || before.mode <= 0xffff)
    case Unflush(contentKey) => th.todo == [p] && (n.a.saveMetadata || n.a.contentKey == contentKey)
    case Relink(name, x) =>
      th.todo == [p] && n.a.saveMetadata && name !in n.children && KeyAt(c.nodes, x) in store
    case Uncreate(name) =>
      && name in n.children
      && (th.todo == [n.children[name], p] || (th.todo == [p] && n.a.saveMetadata))
      && c.nodes[th.todo[0]].a.saveMetadata
  }

  ghost predicate ThreadOk(c: Client, p: NodeId, store: map<bytes, Entry<Record>>)
    requires p in c.threads
  {
    var th := c.threads[p];
    && p in c.nodes && th.todo != [] && th.todo[|th.todo| - 1] == p
    && (forall m :: m in th.todo ==> Held(c, p, m))
    && th.todo[0] in c.nodes && (th.blobDone ==> !c.nodes[th.todo[0]].a.saveContent)
    && UndoOk(c, p, th, store)
  }

  ghost predicate ThreadsOk(c: Client, store: map<bytes, Entry<Record>>) {
    forall p :: p in c.threads ==> ThreadOk(c, p, store)
  }

  ghost predicate ClientOk(c: Client, sh: Shared, count: nat) {
    Shape(c) && OneSlotEach(c) && NodesOk(c, sh, count) && ThreadsOk(c, sh.store)
  }

  // ----- The stores -----

  ghost predicate RecordOk(k: bytes, r: Record, store: map<bytes, Entry<Record>>) {
    (k != ROOT_KEY ==> r.mode <= 0xffff) && Stored(r.children, store)
  }

  ghost predicate EntryOk(k: bytes, e: Entry<Record>, sh: Shared, count: nat) {
    && 0 < e.version <= count
    && (k, e.version) in sh.log && sh.log[(k, e.version)].record == e.value
    && RecordOk(k, e.value, sh.store)
  }

  ghost predicate PutOk(k: bytes, v: uint64, sh: Shared) 
    requires (k, v) in sh.log
  {
    var put := sh.log[(k, v)];
    && k in sh.store && 0 < v <= sh.store[k].version
    && put.replaced < v == put.origin.version + 1
    && (put.replaced > 0 ==> (k, put.replaced) in sh.log)
    && (put.origin.key == k ==> put.origin.version == put.replaced)
  }

  ghost predicate SharedOk(sh: Shared, count: nat) {
    && (forall k :: k in sh.store ==> EntryOk(k, sh.store[k], sh, count))
    && (forall k, v :: (k, v) in sh.log ==> PutOk(k, v, sh))
  }

  // ----- Stores only grow -----

  ghost predicate Grows(sh: Shared, sh': Shared) {
    && (forall k :: k in sh.store ==> k in sh'.store && sh.store[k].version <= sh'.store[k].version)
    && (forall e :: e in sh.log ==> e in sh'.log && sh'.log[e] == sh.log[e])
    && (forall k :: k in sh.blobs ==> k in sh'.blobs)
  }

  lemma NodeOkGrows(id: NodeId, n: Node, links: map<bytes, Key>, sh: Shared, sh': Shared, count: nat, count': nat)
    requires NodeOk(id, n, links, sh, count) && Grows(sh, sh') && count <= count'
    ensures NodeOk(id, n, links, sh', count')
  {
  }

  lemma ClientOkGrows(c: Client, sh: Shared, sh': Shared, count: nat, count': nat)
    requires ClientOk(c, sh, count) && Grows(sh, sh') && count <= count'
    ensures ClientOk(c, sh', count')
  {
    hide NodeOk, Shape, OneSlotEach, Held;
    forall id | id in c.nodes ensures NodeOk(id, c.nodes[id], Links(c, id), sh', count') {
      NodeOkGrows(id, c.nodes[id], Links(c, id), sh, sh', count, count');
    }
    forall p | p in c.threads ensures ThreadOk(c, p, sh'.store) {
      assert ThreadOk(c, p, sh.store);
    }
  }

  // ----- Frames -----

  /** Node id is the same in both clients, and so is everything that it would store. */
  ghost predicate Untouched(c: Client, d: Client, id: NodeId) {
    && id in c.nodes && id in d.nodes && d.nodes[id] == c.nodes[id] && Kids(d, id) == Kids(c, id)
    && forall name :: name in Kids(c, id) ==> KeyAt(d.nodes, Kids(c, id)[name]) == KeyAt(c.nodes, Kids(c, id)[name])
  }

  lemma UntouchedLinks(c: Client, d: Client, id: NodeId)
    requires Untouched(c, d, id)
    ensures Links(d, id) == Links(c, id)
  {
  }

  /** Only the touched nodes need to be looked at. */
  lemma NodesFrame(c: Client, d: Client, sh: Shared, count: nat, touched: set<NodeId>)
    requires NodesOk(c, sh, count)
    requires forall id :: id in d.nodes && id !in touched ==> Untouched(c, d, id)
    requires forall id :: id in d.nodes && id in touched ==> NodeOk(id, d.nodes[id], Links(d, id), sh, count)
    ensures NodesOk(d, sh, count)
  {
    hide NodeOk, Untouched, Links;
    forall id | id in d.nodes ensures NodeOk(id, d.nodes[id], Links(d, id), sh, count) {
      if id !in touched {
        UntouchedLinks(c, d, id);
        UntouchedSame(c, d, id);
      }
    }
  }

  lemma UntouchedSame(c: Client, d: Client, id: NodeId)
    requires Untouched(c, d, id)
    ensures id in c.nodes && id in d.nodes && d.nodes[id] == c.nodes[id]
  {
  }

  /** What the operation on q relies on is the same in both clients. */
  ghost predicate SameFor(c: Client, d: Client, q: NodeId) {
    && q in c.threads && q in d.threads && d.threads[q] == c.threads[q]
    && q in c.nodes && q in d.nodes && d.nodes[q].children == c.nodes[q].children
    && (forall m :: m in c.nodes ==> m in d.nodes)
    && (forall m :: m in c.nodes && m in c.locks && c.locks[m] == q && IsLoaded(m, c.nodes[m]) ==>
          m in d.locks && d.locks[m] == q && SameState(m, c.nodes[m], d.nodes[m]))
  }

  predicate SameState(m: NodeId, n: Node, n': Node) {
    && (IsLoaded(m, n) ==> IsLoaded(m, n'))
    && n'.a.saveMetadata == n.a.saveMetadata && n'.a.saveContent == n.a.saveContent && n'.a.contentKey == n.a.contentKey
  }

  lemma ThreadFrame(c: Client, d: Client, q: NodeId, store: map<bytes, Entry<Record>>)
    requires SameFor(c, d, q) && ThreadOk(c, q, store)
    requires StoredKeysStay(c, d, store)
    requires c.threads[q].undo.Relink? ==> c.threads[q].undo.child in c.nodes
    ensures ThreadOk(d, q, store)
  {
    
    var th := c.threads[q];
    forall m | m in th.todo ensures Held(d, q, m) && SameState(m, c.nodes[m], d.nodes[m]) {
      assert Held(c, q, m);
    }
    assert th.todo[0] in th.todo;
    assert th.todo[|th.todo| - 1] in th.todo;
  }

  ghost predicate StoredKeysStay(c: Client, d: Client, store: map<bytes, Entry<Record>>) {
    forall id :: id in c.nodes && KeyAt(c.nodes, id) in store ==> KeyAt(d.nodes, id) in store
  }

  ghost predicate KeysStay(c: Client, d: Client) {
    forall id :: id in c.nodes ==> KeyAt(d.nodes, id) == KeyAt(c.nodes, id)
  }

  lemma KeysStayStored(c: Client, d: Client, store: map<bytes, Entry<Record>>)
    requires KeysStay(c, d)
    ensures StoredKeysStay(c, d, store)
  {
  }

  /** Only the operations on the touched nodes need to be looked at. */
  lemma ThreadsFrame(c: Client, d: Client, store: map<bytes, Entry<Record>>, touched: set<NodeId>)
    requires Shape(c) && ThreadsOk(c, store) && StoredKeysStay(c, d, store)
    requires forall q :: q in d.threads && q !in touched ==> SameFor(c, d, q)
    requires forall q :: q in d.threads && q in touched ==> ThreadOk(d, q, store)
    ensures ThreadsOk(d, store)
  {
    hide UndoOk, SameFor, Held, OneSlotEach;
    forall q | q in d.threads ensures ThreadOk(d, q, store) {
      if q !in touched {
        SameThread(c, d, q);
        assert ThreadOk(c, q, store);
        assert c.threads[q].undo.Relink? ==> Holds(c, q, c.threads[q].undo.name, c.threads[q].undo.child);
        ThreadFrame(c, d, q, store);
      }
    }
  }

  lemma SameThread(c: Client, d: Client, q: NodeId)
    requires SameFor(c, d, q)
    ensures q in c.threads && q in c.nodes && q in d.threads && d.threads[q] == c.threads[q]
  {
  }

  lemma FewerSlots(c: Client, d: Client)
    requires OneSlotEach(c)
    requires forall p, name, x :: Holds(d, p, name, x) ==> Holds(c, p, name, x)
    ensures OneSlotEach(d)
  {
  }
}
