/** The whole-run theorems: no lost update, no dangling children, coherent snapshots, no missed
    invalidation. A run of fewer than 2^64 steps cannot use up the version numbers. */
module ProtocolTheorems {
  import opened Types
  import opened NodeCodec
  import opened Storage
  import opened NodeSpec
  import opened Protocol
  import opened ProtocolInv
  import opened ProtocolOps
  import opened ProtocolSyncs
  import opened ProtocolNews
  import opened ProtocolLoads
  import opened ProtocolRuns

  lemma ReachedIsOk(hash: bytes -> bytes, run: seq<Label>, w: World)
    requires Reaches(hash, run, w)
    ensures WorldOk(w, |run|) && |run| < MAX_UINT64 as int
  {
    hide WorldOk, Exec, Reaches;
    ReachesByExec(hash, run, w);
    ReachableOk(hash, run);
  }

  lemma ReachedClient(hash: bytes -> bytes, run: seq<Label>, w: World, cid: ClientId)
    requires Reaches(hash, run, w) && cid in w.clients
    ensures ClientOk(w.clients[cid], w.shared, |run|) && Informed(cid, w.clients[cid], w.shared)
  {
    hide Reaches, SharedOk, ClientOk, Informed;
    ReachedIsOk(hash, run, w);
    assert MemberOk(cid, w.clients[cid], w.shared, |run|);
  }

  lemma ReachedNode(hash: bytes -> bytes, run: seq<Label>, w: World, cid: ClientId, id: NodeId)
    requires Reaches(hash, run, w) && cid in w.clients && id in w.clients[cid].nodes
    ensures NodeOk(id, w.clients[cid].nodes[id], Links(w.clients[cid], id), w.shared, |run|)
  {
    hide Reaches, ClientOk, NodeOk, Links;
    ReachedClient(hash, run, w, cid);
    NodesOf(w.clients[cid], w.shared, |run|);
    AnyNode(w.clients[cid], id, w.shared, |run|);
  }

  // ----- No lost update -----

  /** The object has not been given another key since it was last loaded or saved: the branch of
      reloadIfNeeded that changes the key of a child has not been taken for it since. */
  predicate HasItsKey(n: Node) {
    n.origin.key == n.a.key
  }

  /** A put that reaches the server is accepted exactly when its object's version is the server's, as
      long as no reload of its parent has re-keyed the object: the test "version < current + 1" then
      comes down to "version != current + 1". */
  lemma PutsLandIffCurrent(hash: bytes -> bytes, run: seq<Label>, w: World, cid: ClientId, id: NodeId, record: Record, fault: Fault)
    requires Reaches(hash, run, w) && cid in w.clients && id in w.clients[cid].nodes
    requires var n := w.clients[cid].nodes[id]; n.a.saveMetadata && HasItsKey(n) && fault != Lost
    ensures var n := w.clients[cid].nodes[id];
      Lands(n.a, record, w.shared.store, fault) <==> n.a.version == VersionOf(w.shared.store, n.a.key)
  {
    hide Reaches, SharedOk, Links, ClientOk, Stored, Coherent;
    ReachedNode(hash, run, w, cid, id);
    ReachedIsOk(hash, run, w);
    StoredVersions(w.shared, w.clients[cid].nodes[id].a.key, |run|);
    UpToDateLands(w.clients[cid].nodes[id].a, record, w.shared.store, fault);
  }

  lemma UpToDateLands(a: Attrs, record: Record, store: map<bytes, Entry<Record>>, fault: Fault)
    requires a.saveMetadata && fault != Lost && a.version < MAX_UINT64 && VersionOf(store, a.key) < MAX_UINT64
    ensures Lands(a, record, store, fault) <==> a.version >= VersionOf(store, a.key)
  {
  }

  /** An accepted put replaces exactly what its object was last loaded from or saved as, the same version
      of the same key, if and only if the object has not been re-keyed since. */
  lemma PutsReplaceWhatTheyKnow(hash: bytes -> bytes, run: seq<Label>, w: World, cid: ClientId, id: NodeId, record: Record, fault: Fault)
    requires Reaches(hash, run, w) && cid in w.clients && id in w.clients[cid].nodes
    requires Lands(w.clients[cid].nodes[id].a, record, w.shared.store, fault)
    ensures var n := w.clients[cid].nodes[id];
      n.origin == Origin(n.a.key, VersionOf(w.shared.store, n.a.key)) <==> HasItsKey(n)
  {
    hide Reaches, SharedOk, Links, ClientOk, Stored, Coherent;
    ReachedNode(hash, run, w, cid, id);
    ReachedIsOk(hash, run, w);
    LandingFacts(w.clients.Keys, w.shared, cid, id, w.clients[cid].nodes[id], record, fault, |run|);
  }

  /** A client can tell: an object without the reload flag has its key. */
  lemma OnlyFlaggedObjectsAreRekeyed(hash: bytes -> bytes, run: seq<Label>, w: World, cid: ClientId, id: NodeId)
    requires Reaches(hash, run, w) && cid in w.clients && id in w.clients[cid].nodes
    ensures !w.clients[cid].nodes[id].a.reloadMetadata ==> HasItsKey(w.clients[cid].nodes[id])
  {
    hide Reaches, Links;
    ReachedNode(hash, run, w, cid, id);
  }

  /** No lost update, over every run: an accepted put has replaced exactly the version of its key that
      its object was last loaded from or saved as if and only if this origin was under the same key;
      its own version is then the next one. */
  lemma NoLostUpdate(hash: bytes -> bytes, run: seq<Label>, w: World, key: Key, v: uint64)
    requires Reaches(hash, run, w) && (key, v) in w.shared.log
    ensures var put := w.shared.log[(key, v)];
      && (put.origin == Origin(key, put.replaced) <==> put.origin.key == key)
      && (put.origin.key == key ==> put.replaced + 1 == v)
      && (put.replaced > 0 ==> (key, put.replaced) in w.shared.log)
    ensures key in w.shared.store && v <= w.shared.store[key].version
  {
    hide Reaches;
    ReachedIsOk(hash, run, w);
    assert PutOk(key, v, w.shared);
  }

  /** If no re-keyed object has put to a key, its accepted versions are exactly 1 up to the current. */
  lemma {:induction false} VersionsAreConsecutive(hash: bytes -> bytes, run: seq<Label>, w: World, key: Key, v: uint64)
    requires Reaches(hash, run, w)
    requires forall u: uint64 :: (key, u) in w.shared.log ==> w.shared.log[(key, u)].origin.key == key
    ensures (key, v) in w.shared.log <==> 1 <= v <= VersionOf(w.shared.store, key)
    decreases VersionOf(w.shared.store, key) - v
  {
    hide Reaches;
    ReachedIsOk(hash, run, w);
    if (key, v) in w.shared.log {
      assert PutOk(key, v, w.shared);
    }
    if key in w.shared.store {
      assert EntryOk(key, w.shared.store[key], w.shared, |run|);
    }
    if 1 <= v < VersionOf(w.shared.store, key) {
      VersionsAreConsecutive(hash, run, w, key, v + 1);
      NoLostUpdate(hash, run, w, key, v + 1);
    }
  }

  // ----- No dangling children -----

  /** Every child key in a stored directory record is a stored key. */
  lemma NoDanglingChildren(hash: bytes -> bytes, run: seq<Label>, w: World, key: bytes, name: bytes)
    requires Reaches(hash, run, w) && key in w.shared.store && name in w.shared.store[key].value.children
    ensures w.shared.store[key].value.children[name] in w.shared.store
  {
    hide Reaches;
    ReachedIsOk(hash, run, w);
    assert EntryOk(key, w.shared.store[key], w.shared, |run|);
  }

  /** So is the key of every child that a client's directory has, unless it is the child of a Create,
      Mkdir or Symlink in progress that is not yet synced. */
  lemma NoDanglingLinks(hash: bytes -> bytes, run: seq<Label>, w: World, cid: ClientId, id: NodeId, name: bytes)
    requires Reaches(hash, run, w) && cid in w.clients && id in w.clients[cid].nodes
    requires var c := w.clients[cid];
      name in c.nodes[id].children
      && !(id in c.threads && c.threads[id].undo == Uncreate(name) && |c.threads[id].todo| == 2)
    ensures KeyAt(w.clients[cid].nodes, w.clients[cid].nodes[id].children[name]) in w.shared.store
  {
    hide Reaches;
    ReachedNode(hash, run, w, cid, id);
    assert Links(w.clients[cid], id)[name] in w.shared.store;
  }

  // ----- Coherent snapshots -----

  /** A loaded node without flags has the fields and the links of the record that was accepted for its
      key at exactly its version. */
  lemma SnapshotsAreCoherent(hash: bytes -> bytes, run: seq<Label>, w: World, cid: ClientId, id: NodeId)
    requires Reaches(hash, run, w) && cid in w.clients && id in w.clients[cid].nodes
    requires IsClean(id, w.clients[cid].nodes[id])
    ensures var n := w.clients[cid].nodes[id];
      && (n.a.key, n.a.version) in w.shared.log
      && var r := w.shared.log[(n.a.key, n.a.version)].record;
         && r.user == n.a.user && r.group == n.a.group && r.mode == n.a.mode
         && r.contentKey == n.a.contentKey && r.xattrs == n.a.xattrs && r.children == Links(w.clients[cid], id)
  {
    hide Reaches, Links;
    ReachedNode(hash, run, w, cid, id);
  }

  /** ... and if its version is the current one, those of the store. */
  lemma CurrentSnapshots(hash: bytes -> bytes, run: seq<Label>, w: World, cid: ClientId, id: NodeId)
    requires Reaches(hash, run, w) && cid in w.clients && id in w.clients[cid].nodes
    requires var n := w.clients[cid].nodes[id];
      IsClean(id, n) && n.a.version == VersionOf(w.shared.store, n.a.key)
    ensures var n := w.clients[cid].nodes[id];
      && n.a.key in w.shared.store
      && SameButTime(w.shared.store[n.a.key].value, RecordOf(n.a, Links(w.clients[cid], id)))
  {
    hide Reaches, Links, ClientOk;
    ReachedNode(hash, run, w, cid, id);
    ReachedIsOk(hash, run, w);
    var n := w.clients[cid].nodes[id];
    assert EntryOk(n.a.key, w.shared.store[n.a.key], w.shared, |run|);
  }

  // ----- No missed invalidation -----

  /** Whatever the order of delivery: while a node that its client knows by its key is not flagged for
      a reload although the server has a newer version, a broadcast of that current version is pending
      for the client, unless the client has put it itself, by another object for the same key or by
      this one without hearing that it was accepted. */
  lemma InvalidationIsNotMissed(hash: bytes -> bytes, run: seq<Label>, w: World, cid: ClientId, key: bytes)
    requires Reaches(hash, run, w) && cid in w.clients && key in w.clients[cid].known
    requires var id := w.clients[cid].known[key];
      && id in w.clients[cid].nodes
      && var n := w.clients[cid].nodes[id];
         && IsLoaded(id, n) && n.a.key == key
         && n.a.version < VersionOf(w.shared.store, key) && !n.a.reloadMetadata
    ensures var v, id := VersionOf(w.shared.store, key), w.clients[cid].known[key];
      || Cast(cid, key, v) in w.shared.pending
      || ((key, v) in w.shared.log && w.shared.log[(key, v)].client == cid
           && (w.shared.log[(key, v)].node != id || !w.shared.log[(key, v)].acked))
  {
    hide Reaches, ClientOk;
    ReachedClient(hash, run, w, cid);
    var id := w.clients[cid].known[key];
    assert IsBehind(id, w.clients[cid].nodes[id], key, w.shared.store);
  }

  /** The delivery of the current version's broadcast flags a node that is behind. */
  lemma DeliveryFlags(c: Client, key: bytes, version: uint64)
    requires key in c.known && c.known[key] in c.nodes
    ensures var n := Invalidate(c, key, version).nodes[c.known[key]];
      n.a.reloadMetadata <==> c.nodes[c.known[key]].a.reloadMetadata || version > c.nodes[c.known[key]].a.version
  {
  }

  // ----- Reloads reconcile -----

  /** The object has another key, for which it is flagged, and has kept everything else. */
  predicate IsRekeyed(n: Node, n': Node) {
    n'.a.key != n.a.key && n' == n.(a := n.a.(key := n'.a.key, reloadMetadata := true))
  }

  /** After a reload the directory's names lead to exactly the keys loaded for them, every surviving
      name has kept its object, an object whose key changed is flagged for a reload of its own, no
      other object has changed, and the directory's three flags are clear. */
  lemma ReloadReconciles(hash: bytes -> bytes, run: seq<Label>, w: World, l: Label)
    requires Reaches(hash, run, w) && l.Reload? && Enabled(w, l)
    ensures var (c, d) := (w.clients[l.cid], Moved(hash, w, l));
      var e := w.shared.store[c.nodes[l.id].a.key];
      && l.id in d.nodes && d.nodes[l.id].children.Keys == e.value.children.Keys
      && (forall name :: name in e.value.children ==> KeyAt(d.nodes, d.nodes[l.id].children[name]) == e.value.children[name])
      && (forall name :: name in e.value.children && name in c.nodes[l.id].children ==>
            d.nodes[l.id].children[name] == c.nodes[l.id].children[name])
      && (forall x :: x in c.nodes && x != l.id ==> (
            && x in d.nodes
            && (d.nodes[x] == c.nodes[x]
                || (IsRekeyed(c.nodes[x], d.nodes[x]) && x in c.nodes[l.id].children.Values))))
      && d.nodes[l.id].a.version == e.version
      && !d.nodes[l.id].a.saveMetadata && !d.nodes[l.id].a.reloadMetadata && !d.nodes[l.id].a.saveContent
  {
    hide Reaches, ClientOk, Reconciled, ReloadStep, Gains;
    var (c, d) := (w.clients[l.cid], Moved(hash, w, l));
    var e := w.shared.store[c.nodes[l.id].a.key];
    ReachedClient(hash, run, w, l.cid);
    ClientShape(c, w.shared, |run|);
    ReloadStepIs(c, l.id, e, l.arr);
    ReloadDomains(c, d, l.id, e, l.arr);
    forall name | name in e.value.children ensures KeyAt(d.nodes, d.nodes[l.id].children[name]) == e.value.children[name] {
      ReloadLink(c, d, l.id, e, l.arr, name);
    }
    forall x | x in c.nodes && x != l.id
      ensures x in d.nodes && (d.nodes[x] == c.nodes[x]
        || (IsRekeyed(c.nodes[x], d.nodes[x]) && x in c.nodes[l.id].children.Values))
    {
      ReconciledIsRekeyed(c.nodes[x], x, c.nodes[l.id].children, e.value.children);
    }
  }

  /** Its fields are then those of the record, the time included; of its content nothing is left if the
      content key has changed, and all of it otherwise, so that a cache that was true stays true. */
  lemma ReloadTakesTheRecord(hash: bytes -> bytes, run: seq<Label>, w: World, l: Label)
    requires Reaches(hash, run, w) && l.Reload? && Enabled(w, l)
    ensures l.id in Moved(hash, w, l).nodes
    ensures var (a, b, r) := (w.clients[l.cid].nodes[l.id].a, Moved(hash, w, l).nodes[l.id].a, w.shared.store[w.clients[l.cid].nodes[l.id].a.key].value);
      && b.user == r.user && b.group == r.group && b.mode == r.mode && b.nanos == r.nanos
      && b.contentKey == r.contentKey && b.xattrs == r.xattrs && b.key == a.key
      && b.content in {a.content, []} && (b.content == a.content <==> r.contentKey == a.contentKey || a.content == [])
      && (IsCached(a, hash) ==> IsCached(b, hash))
  {
    hide Reaches, Reconciled, ReloadStep, Gains, IsCached;
    var c := w.clients[l.cid];
    var e := w.shared.store[c.nodes[l.id].a.key];
    ReloadStepIs(c, l.id, e, l.arr);
    ReloadDomains(c, Moved(hash, w, l), l.id, e, l.arr);
    ReloadKeepsCache(c.nodes[l.id].a, e.version, e.value, hash);
  }

  /** So are those of a child after its first load, and its names lead to the keys of the record. */
  lemma LoadTakesTheRecord(hash: bytes -> bytes, run: seq<Label>, w: World, l: Label)
    requires Reaches(hash, run, w) && l.LoadChild? && Enabled(w, l)
    ensures var (c, d) := (w.clients[l.cid], Moved(hash, w, l));
      var x := c.nodes[l.id].children[l.name];
      var e := w.shared.store[c.nodes[x].a.key];
      && x in d.nodes && d.nodes[x].a == c.nodes[x].a.(version := e.version, user := e.value.user, group := e.value.group,
           mode := e.value.mode, nanos := e.value.nanos, contentKey := e.value.contentKey, xattrs := e.value.xattrs)
      && d.nodes[x].children.Keys == e.value.children.Keys
      && (forall name :: name in e.value.children ==> KeyAt(d.nodes, d.nodes[x].children[name]) == e.value.children[name])
      && (forall y :: y in c.nodes && y != x ==> y in d.nodes && d.nodes[y] == c.nodes[y])
  {
    hide Reaches, LoadInto, Arrive, ClientOk;
    var c := w.clients[l.cid];
    var x := c.nodes[l.id].children[l.name];
    ReachedClient(hash, run, w, l.cid);
    UnloadedChild(c, l.id, l.name, w.shared, |run|);
    LoadIntoIs(c, x, w.shared.store[c.nodes[x].a.key], l.arr);
  }

  /** e holds exactly the fields of the node at its next version, and the keys that the names of its
      children lead to. */
  predicate HoldsNode(e: Entry<Record>, n: Node, nodes: map<NodeId, Node>) {
    && e.version == n.a.version as int + 1
    && e.value.user == n.a.user && e.value.group == n.a.group && e.value.mode == n.a.mode && e.value.nanos == n.a.nanos
    && e.value.contentKey == n.a.contentKey && e.value.xattrs == n.a.xattrs && e.value.children.Keys == n.children.Keys
    && (forall name :: name in n.children ==> e.value.children[name] == KeyAt(nodes, n.children[name]))
  }

  /** A put that is accepted stores its node, the time included, under its key, and nothing else. */
  lemma PutsStoreTheNode(hash: bytes -> bytes, run: seq<Label>, w: World, l: Label)
    requires Reaches(hash, run, w) && l.SyncMeta? && Enabled(w, l) && w.clients[l.cid].threads[l.p].todo[0] in w.clients[l.cid].nodes
    requires var (c, m) := (w.clients[l.cid], w.clients[l.cid].threads[l.p].todo[0]);
      Lands(c.nodes[m].a, RecordOf(c.nodes[m].a, LinksOf(c.nodes, c.nodes[m].children)), w.shared.store, l.fault)
    ensures var (c, n, sh) := (w.clients[l.cid], w.clients[l.cid].nodes[w.clients[l.cid].threads[l.p].todo[0]], Spread(hash, w, l));
      && n.a.key in sh.store && HoldsNode(sh.store[n.a.key], n, c.nodes)
      && sh.store == w.shared.store[n.a.key := sh.store[n.a.key]] && sh.blobs == w.shared.blobs
  {
    hide Reaches, NodeOk, Links, WorldOk, Lands, LinksOf, HoldsNode, Landed;
    var c, m := w.clients[l.cid], w.clients[l.cid].threads[l.p].todo[0];
    ReachedNode(hash, run, w, l.cid, m);
    ReachedVersion(m, c.nodes[m], Links(c, m), w.shared, |run|);
    ReachedIsOk(hash, run, w);
    LandedHolds(w.clients.Keys, w.shared, l.cid, m, c.nodes[m], c.nodes, l.fault);
  }

  lemma LandedHolds(clients: set<ClientId>, sh: Shared, cid: ClientId, m: NodeId, n: Node, nodes: map<NodeId, Node>, fault: Fault)
    requires Lands(n.a, RecordOf(n.a, LinksOf(nodes, n.children)), sh.store, fault) && n.a.version < MAX_UINT64
    ensures var sh' := Landed(clients, sh, cid, m, n, RecordOf(n.a, LinksOf(nodes, n.children)), fault);
      && n.a.key in sh'.store && HoldsNode(sh'.store[n.a.key], n, nodes)
      && sh'.store == sh.store[n.a.key := sh'.store[n.a.key]] && sh'.blobs == sh.blobs
  {
  }

  lemma ReachedVersion(id: NodeId, n: Node, links: map<bytes, Key>, sh: Shared, count: nat)
    requires NodeOk(id, n, links, sh, count)
    ensures n.a.version <= count
  {
  }

  lemma ReconciledIsRekeyed(n: Node, x: NodeId, before: map<bytes, NodeId>, children: map<bytes, Key>)
    ensures var n' := Reconciled(n, x, before, children);
      n' == n || (IsRekeyed(n, n') && x in before.Values)
  {
  }

  lemma ClientShape(c: Client, sh: Shared, count: nat)
    requires ClientOk(c, sh, count)
    ensures Shape(c) && OneSlotEach(c)
  {
  }

  // ----- Nothing gets stuck -----

  /** An operation in progress can always take its next step, with any outcome. */
  lemma OperationsNeverGetStuck(hash: bytes -> bytes, run: seq<Label>, w: World, cid: ClientId, p: NodeId, fault: Fault)
    requires Reaches(hash, run, w) && cid in w.clients && p in w.clients[cid].threads
    ensures Enabled(w, if w.clients[cid].threads[p].blobDone then SyncMeta(cid, p, fault) else SyncBlob(cid, p, fault))
  {
    hide Reaches, UndoOk, Shape, NodesOk, OneSlotEach;
    var c := w.clients[cid];
    ReachedClient(hash, run, w, cid);
    assert ThreadOk(c, p, w.shared.store);
    forall m | m in c.threads[p].todo ensures m in c.nodes { assert Held(c, p, m); }
  }

  lemma {:induction false} UnusedId(used: set<NodeId>) returns (id: NodeId)
    ensures id !in used && forall x :: x in used ==> x < id
    decreases used
  {
    if used == {} {
      id := 0;
    } else {
      var x :| x in used;
      var below := UnusedId(used - {x});
      id := if x < below then below else x + 1;
      assert forall y :: y in used ==> y == x || y in used - {x};
    }
  }

  /** There are always objects for the children of a record, so every load of a stored key can happen. */
  lemma {:induction false} ArrivalsExist(c: Client, children: map<bytes, Key>) returns (arr: Arrivals)
    ensures Arrive(c, children, arr)
    decreases children.Keys
  {
    if children == map[] {
      arr := Arrivals(map[], c.known);
    } else {
      var name :| name in children;
      var rest := children - {name};
      assert rest.Keys == children.Keys - {name};
      var less := ArrivalsExist(c, rest);
      var id := UnusedId(c.nodes.Keys + less.ids.Values);
      arr := Arrivals(less.ids[name := id], AddKnown(less.known, children[name], id));
      OneMoreArrival(c, children, name, id, less, arr);
    }
  }

  lemma OneMoreArrival(c: Client, children: map<bytes, Key>, name: bytes, id: NodeId, less: Arrivals, arr: Arrivals)
    requires name in children && Arrive(c, children - {name}, less)
    requires id !in c.nodes && id !in less.ids.Values
    requires arr == Arrivals(less.ids[name := id], AddKnown(less.known, children[name], id))
    ensures Arrive(c, children, arr)
  {
    assert children.Keys == (children - {name}).Keys + {name};
    forall k | k in arr.known && k !in c.known ensures exists x :: x in children && children[x] == k && arr.known[k] == arr.ids[x] {
      OneMoreKnown(c, children, name, id, less, arr, k);
    }
  }

  lemma OneMoreKnown(c: Client, children: map<bytes, Key>, name: bytes, id: NodeId, less: Arrivals, arr: Arrivals, k: bytes)
    requires name in children && Arrive(c, children - {name}, less) && k in arr.known && k !in c.known
    requires arr == Arrivals(less.ids[name := id], AddKnown(less.known, children[name], id))
    ensures exists x :: x in children && x in arr.ids && children[x] == k && arr.known[k] == arr.ids[x]
  {
    if k in less.known {
      var x :| x in children - {name} && (children - {name})[x] == k && less.known[k] == less.ids[x];
      assert x in children && x in arr.ids && children[x] == k && arr.known[k] == arr.ids[x];
    } else {
      assert name in children && name in arr.ids && children[name] == k && arr.known[k] == arr.ids[name];
    }
  }
}
