/** The syncs of an operation keep what holds of their client and of the stores. */
module ProtocolSyncs {
  import opened Types
  import opened NodeCodec
  import opened Storage
  import opened NodeSpec
  import opened Protocol
  import opened ProtocolInv
  import opened ProtocolOps

  // ----- Content -----

  /** What a successful content half may do to the node. */
  predicate FlushedAttrs(a: Attrs, b: Attrs) {
    && b == a.(contentKey := b.contentKey, saveContent := false, saveMetadata := b.saveMetadata)
    && (a.saveMetadata ==> b.saveMetadata) && (b.saveMetadata || b.contentKey == a.contentKey)
  }

  function BlobDone(c: Client, p: NodeId, a: Attrs): Client
    requires p in c.threads && c.threads[p].todo != [] && c.threads[p].todo[0] in c.nodes
  {
    var d := WithAttrs(c, c.threads[p].todo[0], a);
    d.(threads := d.threads[p := c.threads[p].(blobDone := true)])
  }

  lemma BlobDoneKeeps(c: Client, p: NodeId, a: Attrs, sh: Shared, count: nat)
    requires ClientOk(c, sh, count) && p in c.threads && c.threads[p].todo != [] && c.threads[p].todo[0] in c.nodes
    requires FlushedAttrs(c.nodes[c.threads[p].todo[0]].a, a)
    ensures ClientOk(BlobDone(c, p, a), sh, count)
  {
    hide NodesOk, NodeOk, Shape, OneSlotEach, ThreadsOk, Untouched, Links, SameFor, KeysStay, ThreadOk, BlobDone, SameState, FlushedAttrs;
    var m, d := c.threads[p].todo[0], BlobDone(c, p, a);
    OwnNext(c, p, sh, count);
    AnyNode(c, m, sh, count);
    FlushedOk(m, c.nodes[m], a, Links(c, m), sh, count);
    BlobUntouched(c, p, a);
    BlobShape(c, p, a);
    forall x | x in d.nodes && x != m ensures Untouched(c, d, x) { BlobOther(c, p, a, x); }
    NodesFrame(c, d, sh, count, {m});
    forall q | q in c.threads && q != p ensures SameFor(c, d, q) { BlobSame(c, p, a, q); }
    BlobThread(c, p, a, sh, count);
    KeysStayStored(c, d, sh.store);
    ThreadsFrame(c, d, sh.store, {p});
  }

  lemma OwnNext(c: Client, p: NodeId, sh: Shared, count: nat)
    requires ClientOk(c, sh, count) && p in c.threads && c.threads[p].todo != []
    ensures p in c.nodes && var m := c.threads[p].todo[0];
      m in c.nodes && m in c.locks && c.locks[m] == p && IsLoaded(m, c.nodes[m])
  {
    hide IsLoaded, UndoOk, OneSlotEach, NodesOk;
    assert ThreadOk(c, p, sh.store);
    assert c.threads[p].todo[0] in c.threads[p].todo;
  }

  lemma FlushedOk(id: NodeId, n: Node, a: Attrs, links: map<bytes, Key>, sh: Shared, count: nat)
    requires NodeOk(id, n, links, sh, count) && IsLoaded(id, n) && FlushedAttrs(n.a, a)
    ensures NodeOk(id, n.(a := a), links, sh, count)
  {
  }

  lemma BlobUntouched(c: Client, p: NodeId, a: Attrs)
    requires p in c.threads && c.threads[p].todo != [] && c.threads[p].todo[0] in c.nodes
    requires FlushedAttrs(c.nodes[c.threads[p].todo[0]].a, a)
    ensures var m, d := c.threads[p].todo[0], BlobDone(c, p, a);
      && d.nodes.Keys == c.nodes.Keys && d.nodes[m] == c.nodes[m].(a := a) && Links(d, m) == Links(c, m)
      && KeysStay(c, d) && d.threads.Keys == c.threads.Keys
  {
  }

  lemma BlobOther(c: Client, p: NodeId, a: Attrs, x: NodeId)
    requires p in c.threads && c.threads[p].todo != [] && c.threads[p].todo[0] in c.nodes
    requires FlushedAttrs(c.nodes[c.threads[p].todo[0]].a, a)
    requires x in c.nodes && x != c.threads[p].todo[0]
    ensures Untouched(c, BlobDone(c, p, a), x)
  {
  }

  lemma BlobShape(c: Client, p: NodeId, a: Attrs)
    requires Shape(c) && OneSlotEach(c) && p in c.threads && c.threads[p].todo != [] && c.threads[p].todo[0] in c.nodes
    ensures Shape(BlobDone(c, p, a)) && OneSlotEach(BlobDone(c, p, a))
  {
    var d := BlobDone(c, p, a);
    forall q, name, x | Holds(d, q, name, x) ensures Holds(c, q, name, x) {
    }
    FewerSlots(c, d);
  }

  lemma BlobSame(c: Client, p: NodeId, a: Attrs, q: NodeId)
    requires Shape(c) && p in c.threads && c.threads[p].todo != [] && q in c.threads && q != p
    requires var m := c.threads[p].todo[0]; m in c.nodes && m in c.locks && c.locks[m] == p
    ensures SameFor(c, BlobDone(c, p, a), q)
  {
    hide Holds, SameState;
    var d := BlobDone(c, p, a);
    forall m | m in c.nodes && m in c.locks && c.locks[m] == q ensures SameState(m, c.nodes[m], d.nodes[m]) {
      SameStateRefl(m, c.nodes[m]);
    }
  }

  lemma BlobThread(c: Client, p: NodeId, a: Attrs, sh: Shared, count: nat)
    requires ClientOk(c, sh, count) && p in c.threads && c.threads[p].todo != [] && c.threads[p].todo[0] in c.nodes
    requires FlushedAttrs(c.nodes[c.threads[p].todo[0]].a, a)
    ensures var d := BlobDone(c, p, a); p in d.threads && ThreadOk(d, p, sh.store)
  {
    hide NodesOk, NodeOk, Shape, OneSlotEach;
    assert ThreadOk(c, p, sh.store);
    var d := BlobDone(c, p, a);
    forall m | m in c.threads[p].todo ensures Held(d, p, m) { assert Held(c, p, m); }
  }

  lemma BlobStepKeeps(hash: bytes -> bytes, c: Client, p: NodeId, fault: Fault, sh: Shared, count: nat)
    requires ClientOk(c, sh, count) && CanSync(c, p, false)
    ensures ClientOk(BlobStep(hash, c, sh.blobs, p, fault).0, sh, count)
  {
    hide ClientOk, Abort, PutBlob;
    var m := c.threads[p].todo[0];
    assert m in c.threads[p].todo;
    var (a, _, ok) := SyncContent(c.nodes[m].a, hash, sh.blobs, fault);
    if ok {
      BlobDoneKeeps(c, p, a, sh, count);
    } else {
      FailKeeps(c, p, a, sh, count);
    }
  }

  // ----- Metadata -----

  lemma LastMetaKeeps(c: Client, p: NodeId, n: Node, sh: Shared, count: nat)
    requires ClientOk(c, sh, count) && p in c.threads && p in c.nodes && c.threads[p].todo == [p]
    requires n.a.key == c.nodes[p].a.key && n.children == c.nodes[p].children
    requires NodeOk(p, n, LinksOf(c.nodes, c.nodes[p].children), sh, count)
    ensures ClientOk(Advance(WithNode(c, p, n), p), sh, count)
  {
    hide ClientOk, NodeOk, LinksOf;
    EndKeeps(c, p, n, sh, count);
  }

  /** What a successful put does to the node. */
  predicate IsSaved(n: Node, n': Node) {
    n'.children == n.children && n'.a == n.a.(version := n'.a.version, saveMetadata := false)
  }

  /** The first node of several is synced. */
  function Stepped(c: Client, p: NodeId, n: Node): Client
    requires p in c.threads && |c.threads[p].todo| >= 2 && forall m :: m in c.threads[p].todo ==> m in c.nodes
  {
    assert c.threads[p].todo[0] in c.threads[p].todo;
    Advance(WithNode(c, c.threads[p].todo[0], n), p)
  }

  ghost predicate CanStepOn(c: Client, p: NodeId, n: Node, sh: Shared, count: nat) {
    && ClientOk(c, sh, count) && p in c.threads && |c.threads[p].todo| >= 2 && c.threads[p].blobDone
    && (forall m :: m in c.threads[p].todo ==> m in c.nodes)
    && c.threads[p].todo[0] in c.nodes
    && var m := c.threads[p].todo[0];
       && IsSaved(c.nodes[m], n)
       && NodeOk(m, n, LinksOf(c.nodes, c.nodes[m].children), sh, count)
       && (c.threads[p].undo.Uncreate? ==> c.nodes[m].a.key in sh.store)
  }

  /** What Stepped does, in a flat form. */
  ghost predicate Steps(c: Client, d: Client, p: NodeId, n: Node) {
    && p in c.threads && |c.threads[p].todo| >= 2 && p in c.nodes && c.threads[p].todo[0] in c.nodes
    && var th, m := c.threads[p], c.threads[p].todo[0];
       && (th.undo.Nothing? || (th.undo.Uncreate? && th.todo == [m, p] && m != p
           && th.undo.name in c.nodes[p].children && c.nodes[p].children[th.undo.name] == m))
       && d.locks == c.locks && d.known == c.known && d.nodes.Keys == c.nodes.Keys
       && d.threads == c.threads[p := Thread(th.todo[1..], false, th.undo)]
       && d.nodes[m] == n && n.a.key == c.nodes[m].a.key && n.children == c.nodes[m].children
       && (p != m ==> d.nodes[p] == if th.undo.Nothing? then c.nodes[p] else c.nodes[p].(a := c.nodes[p].a.(saveMetadata := true)))
       && (forall x :: x in c.nodes && x != m && x != p ==> d.nodes[x] == c.nodes[x])
  }

  lemma StepOnKeeps(c: Client, p: NodeId, n: Node, sh: Shared, count: nat)
    requires CanStepOn(c, p, n, sh, count)
    ensures ClientOk(Stepped(c, p, n), sh, count)
  {
    hide NodesOk, NodeOk, Shape, OneSlotEach, ThreadsOk, Untouched, Links, LinksOf, SameFor, KeysStay, ThreadOk, Stepped, SameState, CanStepOn, Steps;
    CanStepOnFacts(c, p, n, sh, count);
    var m, d := c.threads[p].todo[0], Stepped(c, p, n);
    SteppedSteps(c, p, n, sh, count);
    StepDomains(c, d, p, n);
    StepShape(c, d, p, n);
    StepNode(c, d, p, n);
    if m != p { StepOwner(c, d, p, n, sh, count); }
    forall x | x in d.nodes && x != m && x != p ensures Untouched(c, d, x) { StepOther(c, d, p, n, x); }
    NodesFrame(c, d, sh, count, {m, p});
    forall q | q in c.threads && q != p ensures SameFor(c, d, q) { StepSame(c, d, p, n, q); }
    StepThread(c, d, p, n, sh.store);
    KeysStayStored(c, d, sh.store);
    ThreadsFrame(c, d, sh.store, {p});
  }

  lemma CanStepOnFacts(c: Client, p: NodeId, n: Node, sh: Shared, count: nat)
    requires CanStepOn(c, p, n, sh, count)
    ensures ClientOk(c, sh, count) && p in c.threads && |c.threads[p].todo| >= 2 && p in c.nodes && p in c.locks && c.locks[p] == p
    ensures forall m :: m in c.threads[p].todo ==> m in c.nodes
    ensures var th, m := c.threads[p], c.threads[p].todo[0];
      && m in c.nodes && m in c.locks && c.locks[m] == p && IsSaved(c.nodes[m], n)
      && (th.undo.Nothing? || (th.undo.Uncreate? && th.todo == [m, p] && m != p
           && th.undo.name in c.nodes[p].children && c.nodes[p].children[th.undo.name] == m))
      && (th.undo.Uncreate? ==> m != ROOT && c.nodes[m].a.key in sh.store)
      && ThreadOk(c, p, sh.store) && th.blobDone
      && NodeOk(m, n, LinksOf(c.nodes, c.nodes[m].children), sh, count)
  {
    hide NodeOk, IsLoaded, Stored;
    assert ThreadOk(c, p, sh.store);
    var th, m := c.threads[p], c.threads[p].todo[0];
    assert m in th.todo;
    assert Held(c, p, m);
    if th.undo.Uncreate? {
      assert Holds(c, p, th.undo.name, m);
    }
  }

  lemma SteppedSteps(c: Client, p: NodeId, n: Node, sh: Shared, count: nat)
    requires CanStepOn(c, p, n, sh, count)
    ensures Steps(c, Stepped(c, p, n), p, n)
  {
    hide ClientOk, NodeOk, LinksOf, ThreadOk;
    CanStepOnFacts(c, p, n, sh, count);
  }

  lemma StepDomains(c: Client, d: Client, p: NodeId, n: Node)
    requires Steps(c, d, p, n)
    ensures d.nodes.Keys == c.nodes.Keys && d.threads.Keys == c.threads.Keys && KeysStay(c, d)
  {
  }

  lemma StepShape(c: Client, d: Client, p: NodeId, n: Node)
    requires Shape(c) && OneSlotEach(c) && Steps(c, d, p, n)
    ensures Shape(d) && OneSlotEach(d)
  {
    forall q, name, x | Holds(d, q, name, x) ensures Holds(c, q, name, x) {
    }
    FewerSlots(c, d);
  }

  lemma StepNode(c: Client, d: Client, p: NodeId, n: Node)
    requires Shape(c) && Steps(c, d, p, n)
    requires var m := c.threads[p].todo[0]; m in c.locks && c.locks[m] == p
    ensures var m := c.threads[p].todo[0];
      m in d.nodes && d.nodes[m] == n && Links(d, m) == LinksOf(c.nodes, c.nodes[m].children)
  {
    var m := c.threads[p].todo[0];
    assert m != p ==> m !in c.threads;
    assert Kids(d, m) == c.nodes[m].children;
  }

  lemma StepOther(c: Client, d: Client, p: NodeId, n: Node, x: NodeId)
    requires Steps(c, d, p, n) && x in c.nodes && x != p && x != c.threads[p].todo[0]
    ensures Untouched(c, d, x)
  {
  }

  /** The operation's own node; an unfinished child becomes one that counts. */
  lemma StepOwner(c: Client, d: Client, p: NodeId, n: Node, sh: Shared, count: nat)
    requires ClientOk(c, sh, count) && Steps(c, d, p, n) && p != c.threads[p].todo[0]
    requires c.threads[p].undo.Uncreate? ==> c.threads[p].todo[0] != ROOT && c.nodes[c.threads[p].todo[0]].a.key in sh.store
    ensures p in d.nodes && NodeOk(p, d.nodes[p], Links(d, p), sh, count)
  {
    hide NodesOk, NodeOk, Shape, OneSlotEach, ThreadsOk, Untouched, Links, LinksOf, SameFor, KeysStay, ThreadOk, UndoOk;
    AnyNode(c, p, sh, count);
    Own(c, p, sh, count);
    if c.threads[p].undo.Nothing? {
      OwnerOfRename(c, d, p, n);
    } else {
      var m := c.threads[p].todo[0];
      AnyNode(c, m, sh, count);
      NodeFacts(p, c.nodes[p], Links(c, p), sh, count);
      NodeFacts(m, c.nodes[m], Links(c, m), sh, count);
      OwnerLinks(c, d, p, n, sh.store);
      DirtyOk(p, c.nodes[p], d.nodes[p], Links(c, p), Links(d, p), sh, count);
    }
  }

  lemma OwnerOfRename(c: Client, d: Client, p: NodeId, n: Node)
    requires Steps(c, d, p, n) && p != c.threads[p].todo[0] && c.threads[p].undo.Nothing?
    ensures d.nodes[p] == c.nodes[p] && Links(d, p) == Links(c, p)
  {
    assert Kids(d, p) == Kids(c, p);
  }

  lemma OwnerLinks(c: Client, d: Client, p: NodeId, n: Node, store: map<bytes, Entry<Record>>)
    requires Steps(c, d, p, n) && c.threads[p].undo.Uncreate?
    requires var k := c.nodes[c.threads[p].todo[0]].a.key; k in store && k != ROOT_KEY
    requires Stored(Links(c, p), store)
    ensures p in d.nodes && Stored(Links(d, p), store)
  {
    var before, after := Links(c, p), Links(d, p);
    forall x | x in after ensures after[x] in store && after[x] != ROOT_KEY {
      if x != c.threads[p].undo.name { assert before[x] == after[x]; }
    }
  }

  lemma StepSame(c: Client, d: Client, p: NodeId, n: Node, q: NodeId)
    requires Shape(c) && Steps(c, d, p, n) && q in c.threads && q != p
    requires var m := c.threads[p].todo[0]; m in c.locks && c.locks[m] == p
    ensures SameFor(c, d, q)
  {
    hide SameState, Holds;
    assert p in c.locks && c.locks[p] == p && q in c.locks && c.locks[q] == q;
    forall m | m in c.nodes && m in c.locks && c.locks[m] == q ensures SameState(m, c.nodes[m], d.nodes[m]) {
      SameStateRefl(m, c.nodes[m]);
    }
  }

  lemma StepThread(c: Client, d: Client, p: NodeId, n: Node, store: map<bytes, Entry<Record>>)
    requires Steps(c, d, p, n) && ThreadOk(c, p, store) && c.threads[p].blobDone && IsSaved(c.nodes[c.threads[p].todo[0]], n)
    ensures p in d.threads && ThreadOk(d, p, store)
  {
    var th := c.threads[p];
    var rest := th.todo[1..];
    forall m | m in rest ensures m in th.todo && Held(d, p, m) { assert Held(c, p, m); }
    assert rest[0] in rest;
    assert th.undo.Uncreate? ==> rest == [p];
  }

  // ----- A put that lands -----

  /** The record that the sync of node m would store. */
  function RecordFor(c: Client, m: NodeId): Record
    requires m in c.nodes
  {
    RecordOf(c.nodes[m].a, LinksOf(c.nodes, c.nodes[m].children))
  }

  lemma LandingFacts(clients: set<ClientId>, sh: Shared, cid: ClientId, m: NodeId, n: Node, record: Record, fault: Fault, count: nat)
    requires SharedOk(sh, count) && n.a.version <= count < MAX_UINT64
    requires Lands(n.a, record, sh.store, fault)
    ensures Next(n.a.version) == n.a.version + 1 && VersionOf(sh.store, n.a.key) <= n.a.version
    ensures (n.a.key, Next(n.a.version)) !in sh.log
    ensures n.a.version <= VersionOf(sh.store, n.a.key) ==> VersionOf(sh.store, n.a.key) == n.a.version
  {
    hide SharedOk;
    StoredVersions(sh, n.a.key, count);
    if (n.a.key, Next(n.a.version)) in sh.log {
      LoggedVersions(sh, n.a.key, Next(n.a.version), count);
    }
  }

  lemma StoredVersions(sh: Shared, k: bytes, count: nat)
    requires SharedOk(sh, count)
    ensures VersionOf(sh.store, k) <= count
  {
    assert k in sh.store ==> EntryOk(k, sh.store[k], sh, count);
  }

  lemma LoggedVersions(sh: Shared, k: bytes, v: uint64, count: nat)
    requires SharedOk(sh, count) && (k, v) in sh.log
    ensures k in sh.store && 0 < v <= sh.store[k].version
  {
    assert PutOk(k, v, sh);
  }

  lemma LandedGrows(clients: set<ClientId>, sh: Shared, cid: ClientId, m: NodeId, n: Node, record: Record, fault: Fault, count: nat)
    requires SharedOk(sh, count) && n.a.version <= count < MAX_UINT64
    ensures Grows(sh, Landed(clients, sh, cid, m, n, record, fault))
  {
    if Lands(n.a, record, sh.store, fault) {
      LandingFacts(clients, sh, cid, m, n, record, fault, count);
    }
  }

  lemma LandedOk(clients: set<ClientId>, sh: Shared, cid: ClientId, m: NodeId, n: Node, record: Record, fault: Fault, count: nat)
    requires SharedOk(sh, count) && n.a.version <= count < MAX_UINT64
    requires OriginOk(n, sh.store)
    requires RecordOk(n.a.key, record, sh.store)
    ensures SharedOk(Landed(clients, sh, cid, m, n, record, fault), count + 1)
  {
    var sh' := Landed(clients, sh, cid, m, n, record, fault);
    LandedGrows(clients, sh, cid, m, n, record, fault, count);
    if Lands(n.a, record, sh.store, fault) {
      LandingFacts(clients, sh, cid, m, n, record, fault, count);
      LandedEntries(sh, sh', n, record, count);
      LandedPuts(sh, sh', n, record, count);
    } else {
      hide RecordOk, PutOk;
    }
  }

  /** sh' is sh with one more accepted put. */
  ghost predicate OneMore(sh: Shared, sh': Shared, n: Node, record: Record) {
    && Grows(sh, sh')
    && var v, old_ := n.a.version + 1, VersionOf(sh.store, n.a.key);
       && v <= MAX_UINT64 && old_ < v && (n.origin.key == n.a.key ==> old_ == n.a.version) && n.origin.version == n.a.version
       && (n.a.key, v) in sh'.log && (n.a.key, v) !in sh.log
       && sh'.store == sh.store[n.a.key := Entry(v, record)]
       && sh'.log == sh.log[(n.a.key, v) := sh'.log[(n.a.key, v)]]
       && sh'.log[(n.a.key, v)].record == record
       && sh'.log[(n.a.key, v)].replaced == old_
       && sh'.log[(n.a.key, v)].origin == n.origin
  }

  lemma LandedEntries(sh: Shared, sh': Shared, n: Node, record: Record, count: nat)
    requires SharedOk(sh, count) && OneMore(sh, sh', n, record) && n.a.version <= count
    requires RecordOk(n.a.key, record, sh.store)
    ensures forall k :: k in sh'.store ==> EntryOk(k, sh'.store[k], sh', count + 1)
  {
    hide PutOk;
    forall k | k in sh'.store ensures EntryOk(k, sh'.store[k], sh', count + 1) {
      if k != n.a.key { assert EntryOk(k, sh.store[k], sh, count); }
    }
  }

  lemma LandedPuts(sh: Shared, sh': Shared, n: Node, record: Record, count: nat)
    requires SharedOk(sh, count) && OneMore(sh, sh', n, record)
    ensures forall k, v :: (k, v) in sh'.log ==> PutOk(k, v, sh')
  {
    hide RecordOk;
    forall k, v | (k, v) in sh'.log ensures PutOk(k, v, sh') {
      if (k, v) in sh.log {
        assert PutOk(k, v, sh);
      } else if k in sh.store {
        assert EntryOk(k, sh.store[k], sh, count);
      }
    }
  }

  // ----- The whole metadata step -----

  lemma MetaStepKeeps(clients: set<ClientId>, cid: ClientId, c: Client, p: NodeId, fault: Fault, sh: Shared, count: nat)
    requires ClientOk(c, sh, count) && SharedOk(sh, count) && CanSync(c, p, true) && count < MAX_UINT64
    requires c.threads[p].todo[0] in c.nodes
    ensures var m := c.threads[p].todo[0];
      var sh' := Landed(clients, sh, cid, m, c.nodes[m], RecordFor(c, m), fault);
      Grows(sh, sh') && SharedOk(sh', count + 1) && ClientOk(MetaStep(c, sh.store, p, fault), sh', count + 1)
  {
    hide ClientOk, SharedOk, NodeOk, Grows, Advance, Abort, Landed, RecordOk;
    var m := c.threads[p].todo[0];
    var n, record := c.nodes[m], RecordFor(c, m);
    var sh' := Landed(clients, sh, cid, m, n, record, fault);
    SyncedNode(c, p, sh, count);
    LandedGrows(clients, sh, cid, m, n, record, fault, count);
    LandedOk(clients, sh, cid, m, n, record, fault, count);
    ClientOkGrows(c, sh, sh', count, count + 1);
    var (a, _, ok) := SyncMetadata(n.a, record, sh.store, fault);
    if !ok {
      FailKeeps(c, p, a, sh', count + 1);
    } else {
      SavedOk(clients, cid, c, p, fault, sh, count);
      if |c.threads[p].todo| == 1 {
        LastMetaKeeps(c, p, Saved(n, a), sh', count + 1);
      } else {
        StepOnKeeps(c, p, Saved(n, a), sh', count + 1);
      }
    }
  }

  lemma SyncedNode(c: Client, p: NodeId, sh: Shared, count: nat)
    requires ClientOk(c, sh, count) && p in c.threads && c.threads[p].todo != [] && c.threads[p].todo[0] in c.nodes
    ensures var m := c.threads[p].todo[0];
      var n := c.nodes[m];
      && n.a.version <= count && IsLoaded(m, n)
      && OriginOk(n, sh.store)
      && RecordOk(n.a.key, RecordFor(c, m), sh.store)
      && Links(c, m) == LinksOf(c.nodes, n.children)
      && NodeOk(m, n, Links(c, m), sh, count)
      && (|c.threads[p].todo| == 1 ==> m == p)
      && (c.threads[p].undo.Uncreate? ==> n.a.saveMetadata)
  {
    hide OneSlotEach, NodesOk, Coherent, Stored;
    var m := c.threads[p].todo[0];
    AnyNode(c, m, sh, count);
    OwnNext(c, p, sh, count);
    OwnNextKids(c, p, sh, count);
  }

  lemma OwnNextKids(c: Client, p: NodeId, sh: Shared, count: nat)
    requires ClientOk(c, sh, count) && p in c.threads && c.threads[p].todo != [] && c.threads[p].todo[0] in c.nodes
    ensures var m := c.threads[p].todo[0];
      && Links(c, m) == LinksOf(c.nodes, c.nodes[m].children)
      && (|c.threads[p].todo| == 1 ==> m == p)
      && (c.threads[p].undo.Uncreate? ==> c.nodes[m].a.saveMetadata)
  {
    hide OneSlotEach, NodesOk, LinksOf;
    var m := c.threads[p].todo[0];
    OwnNext(c, p, sh, count);
    assert ThreadOk(c, p, sh.store);
    if m != p {
      OnlyOwnerHasThread(c, m, p);
    } else if c.threads[p].undo.Uncreate? {
      assert Holds(c, p, c.threads[p].undo.name, c.nodes[p].children[c.threads[p].undo.name]);
    }
    KidsAreAll(c, m);
  }

  lemma OnlyOwnerHasThread(c: Client, m: NodeId, p: NodeId)
    requires Shape(c) && m in c.locks && c.locks[m] == p && m != p
    ensures m !in c.threads
  {
  }

  lemma SavedOk(clients: set<ClientId>, cid: ClientId, c: Client, p: NodeId, fault: Fault, sh: Shared, count: nat)
    requires ClientOk(c, sh, count) && SharedOk(sh, count) && CanSync(c, p, true) && count < MAX_UINT64
    requires c.threads[p].todo[0] in c.nodes
    requires var m := c.threads[p].todo[0]; SyncMetadata(c.nodes[m].a, RecordFor(c, m), sh.store, fault).2
    ensures var m := c.threads[p].todo[0];
      var n, record := c.nodes[m], RecordFor(c, m);
      var sh' := Landed(clients, sh, cid, m, n, record, fault);
      var a := SyncMetadata(n.a, record, sh.store, fault).0;
      && IsSaved(n, Saved(n, a))
      && NodeOk(m, Saved(n, a), LinksOf(c.nodes, n.children), sh', count + 1)
      && (c.threads[p].undo.Uncreate? ==> n.a.key in sh'.store)
  {
    hide ClientOk, SharedOk, LinksOf, Stored, RecordOk;
    var m := c.threads[p].todo[0];
    var n, record := c.nodes[m], RecordFor(c, m);
    SyncedNode(c, p, sh, count);
    LandedGrows(clients, sh, cid, m, n, record, fault, count);
    NodeOkGrows(m, n, Links(c, m), sh, Landed(clients, sh, cid, m, n, record, fault), count, count + 1);
    if n.a.saveMetadata {
      LandingFacts(clients, sh, cid, m, n, record, fault, count);
    }
  }
}
