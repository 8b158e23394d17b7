/** Loads, reloads, writes and deliveries keep what holds of their client. */
module ProtocolLoads {
  import opened Types
  import opened NodeCodec
  import opened Storage
  import opened NodeSpec
  import opened Protocol
  import opened ProtocolInv
  import opened ProtocolOps

  // ----- What both kinds of loading do -----

  /** The objects made for the children of a record have come to the client, under ids of their own. */
  ghost predicate Gains(c: Client, d: Client, children: map<bytes, Key>, arr: Arrivals) {
    && d.nodes.Keys == c.nodes.Keys + arr.ids.Values && d.locks == c.locks && d.threads == c.threads && d.known == arr.known
    && arr.ids.Keys == children.Keys
    && (forall name :: name in arr.ids ==> (
          && arr.ids[name] !in c.nodes && arr.ids[name] in d.nodes
          && d.nodes[arr.ids[name]] == Unloaded(children[name])))
    && (forall x, y :: x in arr.ids && y in arr.ids && arr.ids[x] == arr.ids[y] ==> x == y)
    && (forall k :: k in arr.known ==> (k in c.known && arr.known[k] == c.known[k]) || arr.known[k] in arr.ids.Values)
  }

  lemma NewbornIs(children: map<bytes, Key>, ids: map<bytes, NodeId>)
    requires ids.Keys == children.Keys
    requires forall x, y :: x in ids && y in ids && ids[x] == ids[y] ==> x == y
    ensures Newborn(children, ids).Keys == ids.Values
    ensures forall name :: name in ids ==> (
      && ids[name] in Newborn(children, ids)
      && Newborn(children, ids)[ids[name]] == Unloaded(children[name]))
  {
    forall id | id in ids.Values ensures id in Newborn(children, ids) {
      var name :| name in ids && ids[name] == id;
      assert NameOf(ids, id).Some?;
    }
    forall name | name in ids ensures NameOf(ids, ids[name]) == Some(name) && ids[name] in ids.Values {
    }
  }

  lemma ArrivedKnown(c: Client, children: map<bytes, Key>, arr: Arrivals)
    requires Arrive(c, children, arr)
    ensures forall k :: k in arr.known ==> (k in c.known && arr.known[k] == c.known[k]) || arr.known[k] in arr.ids.Values
  {
    forall k | k in arr.known && k !in c.known ensures arr.known[k] in arr.ids.Values {
      var name :| name in children && children[name] == k && arr.known[k] == arr.ids[name];
    }
  }

  lemma FreshOk(id: NodeId, key: Key, sh: Shared, count: nat)
    requires id != ROOT && key != ROOT_KEY
    ensures NodeOk(id, Unloaded(key), map[], sh, count)
  {
  }

  lemma GainedOk(c: Client, d: Client, children: map<bytes, Key>, arr: Arrivals, x: NodeId, sh: Shared, count: nat)
    requires Gains(c, d, children, arr) && Shape(c) && x in d.nodes && x !in c.nodes && Stored(children, sh.store)
    ensures NodeOk(x, d.nodes[x], Links(d, x), sh, count)
  {
    hide NodeOk;
    var name :| name in arr.ids && arr.ids[name] == x;
    assert Links(d, x) == map[];
    FreshOk(x, children[name], sh, count);
  }

  lemma GainSlots(c: Client, d: Client, id: NodeId, children: map<bytes, Key>, arr: Arrivals, q: NodeId, m: bytes, x: NodeId)
    requires Gains(c, d, children, arr) && id in c.nodes && Holds(d, q, m, x)
    requires forall p :: p in d.threads ==> p in c.nodes
    requires forall y :: y in c.nodes && y != id ==> d.nodes[y].children == c.nodes[y].children
    requires forall name :: name in d.nodes[id].children ==>
      Holds(c, id, name, d.nodes[id].children[name]) || (name in arr.ids && arr.ids[name] == d.nodes[id].children[name])
    ensures Holds(c, q, m, x) || (q == id && m in arr.ids && x == arr.ids[m])
  {
  }

  /** One node has new children, the old ones being slots that it held, or arrivals. */
  lemma GainShape(c: Client, d: Client, id: NodeId, children: map<bytes, Key>, arr: Arrivals)
    requires Shape(c) && OneSlotEach(c) && Gains(c, d, children, arr) && id in c.nodes
    requires forall y :: y in c.nodes && y != id ==> d.nodes[y].children == c.nodes[y].children
    requires forall name :: name in d.nodes[id].children ==>
      Holds(c, id, name, d.nodes[id].children[name]) || (name in arr.ids && arr.ids[name] == d.nodes[id].children[name])
    ensures Shape(d) && OneSlotEach(d)
  {
    GainLocks(c, d, id, children, arr);
    forall q, m, x | Holds(d, q, m, x) ensures Holds(c, q, m, x) || (q == id && m in arr.ids && x == arr.ids[m]) {
      GainSlots(c, d, id, children, arr, q, m, x);
    }
    hide Holds, Gains;
  }

  lemma GainLocks(c: Client, d: Client, id: NodeId, children: map<bytes, Key>, arr: Arrivals)
    requires Shape(c) && Gains(c, d, children, arr) && id in c.nodes
    ensures ROOT in d.nodes && (forall x :: x in c.nodes ==> x in d.nodes)
    ensures forall p, name, x :: Holds(c, p, name, x) ==> x in c.nodes && x != ROOT && x != p
    ensures forall m :: m in arr.ids ==> arr.ids[m] in d.nodes && arr.ids[m] !in c.nodes && arr.ids[m] != ROOT && arr.ids[m] != id
    ensures forall x, y :: x in arr.ids && y in arr.ids && arr.ids[x] == arr.ids[y] ==> x == y
    ensures forall x :: x in d.locks ==> x in d.nodes && d.locks[x] in d.threads
    ensures forall p :: p in d.threads ==> p in d.nodes && p in d.locks && d.locks[p] == p
    ensures forall k :: k in d.known ==> d.known[k] in d.nodes
  {
    hide Holds;
  }

  // ----- LoadMetadata into a node that was never filled -----

  ghost predicate Loads(c: Client, d: Client, id: NodeId, e: Entry<Record>, arr: Arrivals) {
    && Gains(c, d, e.value.children, arr) && id in c.nodes
    && d.nodes[id] == Node(Loaded(c.nodes[id].a, c.nodes[id].a.key, e.version, e.value), arr.ids, Origin(c.nodes[id].a.key, e.version))
    && (forall x :: x in c.nodes && x != id ==> d.nodes[x] == c.nodes[x])
  }

  lemma LoadIntoIs(c: Client, id: NodeId, e: Entry<Record>, arr: Arrivals)
    requires id in c.nodes && Arrive(c, e.value.children, arr)
    ensures Loads(c, LoadInto(c, id, e, arr), id, e, arr)
  {
    hide Newborn, Gains;
    var n := Node(Loaded(c.nodes[id].a, c.nodes[id].a.key, e.version, e.value), arr.ids, Origin(c.nodes[id].a.key, e.version));
    JoinedGains(c, c.nodes, id, n, e.value.children, arr);
    NewbornIs(e.value.children, arr.ids);
    Joined(c.nodes, Newborn(e.value.children, arr.ids), id, n);
  }

  lemma JoinedGains(c: Client, kept: map<NodeId, Node>, id: NodeId, n: Node, children: map<bytes, Key>, arr: Arrivals)
    requires Arrive(c, children, arr) && kept.Keys == c.nodes.Keys && id in c.nodes
    ensures Gains(c, c.(nodes := (kept + Newborn(children, arr.ids))[id := n], known := arr.known), children, arr)
  {
    hide Newborn;
    NewbornIs(children, arr.ids);
    ArrivedKnown(c, children, arr);
    Joined(kept, Newborn(children, arr.ids), id, n);
    hide Arrive;
    ArriveFacts(c, children, arr);
  }

  lemma ArriveFacts(c: Client, children: map<bytes, Key>, arr: Arrivals)
    requires Arrive(c, children, arr)
    ensures arr.ids.Keys == children.Keys
    ensures forall name :: name in arr.ids ==> arr.ids[name] !in c.nodes
    ensures forall x, y :: x in arr.ids && y in arr.ids && arr.ids[x] == arr.ids[y] ==> x == y
  {
  }

  lemma Joined(a: map<NodeId, Node>, b: map<NodeId, Node>, id: NodeId, n: Node)
    requires id in a && id !in b
    ensures var d := (a + b)[id := n];
      && d.Keys == a.Keys + b.Keys && d[id] == n
      && (forall x :: x in a && x != id && x !in b ==> d[x] == a[x]) && (forall x :: x in b ==> d[x] == b[x])
  {
  }

  lemma LoadKeeps(c: Client, id: NodeId, arr: Arrivals, sh: Shared, count: nat)
    requires ClientOk(c, sh, count) && SharedOk(sh, count) && CanLoad(c, sh.store, id, arr)
    requires Pristine(c.nodes[id]) && id !in c.threads && (id in c.locks ==> !IsLoaded(id, c.nodes[id]))
    ensures ClientOk(LoadInto(c, id, sh.store[c.nodes[id].a.key], arr), sh, count)
  {
    hide NodesOk, NodeOk, Shape, OneSlotEach, ThreadsOk, Untouched, Links, LinksOf, SameFor, KeysStay, LoadInto, SharedOk, Loads, Gains;
    var e := sh.store[c.nodes[id].a.key];
    var d := LoadInto(c, id, e, arr);
    LoadIntoIs(c, id, e, arr);
    LoadDomains(c, d, id, e, arr);
    LoadedEntry(sh, count, c.nodes[id].a.key);
    LoadShape(c, d, id, e, arr);
    LoadNode(c, d, id, e, arr, sh, count);
    forall x | x in d.nodes && x !in c.nodes ensures NodeOk(x, d.nodes[x], Links(d, x), sh, count) {
      LoadGains(c, d, id, e, arr);
      GainedOk(c, d, e.value.children, arr, x, sh, count);
    }
    forall x | x in c.nodes && x != id ensures Untouched(c, d, x) { LoadOther(c, d, id, e, arr, x); }
    NodesFrame(c, d, sh, count, {id} + (d.nodes.Keys - c.nodes.Keys));
    forall q | q in c.threads ensures SameFor(c, d, q) { LoadSame(c, d, id, e, arr, q); }
    KeysStayStored(c, d, sh.store);
    ThreadsFrame(c, d, sh.store, {});
  }

  lemma LoadGains(c: Client, d: Client, id: NodeId, e: Entry<Record>, arr: Arrivals)
    requires Loads(c, d, id, e, arr)
    ensures Gains(c, d, e.value.children, arr)
  {
  }

  lemma LoadedEntry(sh: Shared, count: nat, k: bytes)
    requires SharedOk(sh, count) && k in sh.store
    ensures EntryOk(k, sh.store[k], sh, count) && Stored(sh.store[k].value.children, sh.store)
  {
    hide Stored;
    assert EntryOk(k, sh.store[k], sh, count);
  }

  lemma LoadDomains(c: Client, d: Client, id: NodeId, e: Entry<Record>, arr: Arrivals)
    requires Loads(c, d, id, e, arr)
    ensures KeysStay(c, d) && d.threads == c.threads && id in d.nodes && forall x :: x in c.nodes ==> x in d.nodes
  {
  }

  lemma LoadShape(c: Client, d: Client, id: NodeId, e: Entry<Record>, arr: Arrivals)
    requires Shape(c) && OneSlotEach(c) && Loads(c, d, id, e, arr)
    ensures Shape(d) && OneSlotEach(d)
  {
    hide Gains, Shape, OneSlotEach, Holds;
    LoadDomains(c, d, id, e, arr);
    GainShape(c, d, id, e.value.children, arr);
  }

  /** What a fresh node says after the load is what the store holds. */
  lemma LoadNode(c: Client, d: Client, id: NodeId, e: Entry<Record>, arr: Arrivals, sh: Shared, count: nat)
    requires Loads(c, d, id, e, arr) && Pristine(c.nodes[id]) && id !in c.threads
    requires NodesOk(c, sh, count) && c.nodes[id].a.key in sh.store && e == sh.store[c.nodes[id].a.key]
    requires EntryOk(c.nodes[id].a.key, e, sh, count)
    ensures id in d.nodes && NodeOk(id, d.nodes[id], Links(d, id), sh, count)
  {
    AnyNode(c, id, sh, count);
    NodeFacts(id, c.nodes[id], Links(c, id), sh, count);
    assert Links(d, id) == e.value.children by { LoadLinks(c, d, id, e, arr); }
    hide NodesOk, Links;
    assert RecordOf(d.nodes[id].a, e.value.children) == e.value;
  }

  lemma LoadLinks(c: Client, d: Client, id: NodeId, e: Entry<Record>, arr: Arrivals)
    requires Loads(c, d, id, e, arr) && id !in c.threads
    ensures Links(d, id) == e.value.children
  {
    assert Kids(d, id) == arr.ids;
  }

  lemma LoadOther(c: Client, d: Client, id: NodeId, e: Entry<Record>, arr: Arrivals, x: NodeId)
    requires Loads(c, d, id, e, arr) && Shape(c) && x in c.nodes && x != id
    ensures Untouched(c, d, x)
  {
    forall m | m in c.nodes[x].children ensures c.nodes[x].children[m] in c.nodes {
      assert Holds(c, x, m, c.nodes[x].children[m]);
    }
  }

  lemma LoadSame(c: Client, d: Client, id: NodeId, e: Entry<Record>, arr: Arrivals, q: NodeId)
    requires Loads(c, d, id, e, arr) && Shape(c) && q in c.threads && q != id
    requires id in c.locks ==> !IsLoaded(id, c.nodes[id])
    ensures SameFor(c, d, q)
  {
    hide SameState, Holds, IsLoaded;
    LoadDomains(c, d, id, e, arr);
    forall m | m in c.nodes && m in c.locks && c.locks[m] == q && IsLoaded(m, c.nodes[m]) ensures SameState(m, c.nodes[m], d.nodes[m]) {
      SameStateRefl(m, c.nodes[m]);
    }
  }

  // ----- Reloads -----

  ghost predicate Reloads(c: Client, d: Client, id: NodeId, e: Entry<Record>, arr: Arrivals) {
    && Gains(c, d, e.value.children, arr) && id in c.nodes
    && d.nodes[id].a == Reloaded(c.nodes[id].a, e.version, e.value) && d.nodes[id].origin == Origin(c.nodes[id].a.key, e.version)
    && d.nodes[id].children.Keys == e.value.children.Keys
    && (forall name :: name in e.value.children ==>
          d.nodes[id].children[name] == if name in c.nodes[id].children then c.nodes[id].children[name] else arr.ids[name])
    && (forall x :: x in c.nodes && x != id ==>
          d.nodes[x] == Reconciled(c.nodes[x], x, c.nodes[id].children, e.value.children))
  }

  lemma ReloadStepIs(c: Client, id: NodeId, e: Entry<Record>, arr: Arrivals)
    requires id in c.nodes && Arrive(c, e.value.children, arr)
    ensures Reloads(c, ReloadStep(c, id, e, arr), id, e, arr)
  {
    hide Newborn, Gains, Kept, Reconciled, Arrive, Reloaded;
    ArriveFacts(c, e.value.children, arr);
    var kept := Kept(c.nodes, c.nodes[id].children, e.value.children);
    var n := ReloadStep(c, id, e, arr).nodes[id];
    KeptIs(c.nodes, c.nodes[id].children, e.value.children);
    JoinedGains(c, kept, id, n, e.value.children, arr);
    NewbornIs(e.value.children, arr.ids);
    Joined(kept, Newborn(e.value.children, arr.ids), id, n);
  }

  lemma KeptIs(nodes: map<NodeId, Node>, before: map<bytes, NodeId>, children: map<bytes, Key>)
    ensures var kept := Kept(nodes, before, children);
      kept.Keys == nodes.Keys && forall x :: x in nodes ==> kept[x] == Reconciled(nodes[x], x, before, children)
  {
    hide Reconciled;
  }

  lemma ReconciledKeeps(n: Node, x: NodeId, before: map<bytes, NodeId>, children: map<bytes, Key>)
    ensures var n' := Reconciled(n, x, before, children);
      && n' == n.(a := n'.a)
      && n'.a == n.a.(key := n'.a.key, reloadMetadata := n'.a.reloadMetadata)
      && (n' == n || n'.a.reloadMetadata)
      && (n'.a.key == n.a.key || exists name :: name in before && before[name] == x && name in children && n'.a.key == children[name])
  {
  }

  lemma ReloadKeeps(c: Client, id: NodeId, arr: Arrivals, sh: Shared, count: nat)
    requires ClientOk(c, sh, count) && SharedOk(sh, count) && CanLoad(c, sh.store, id, arr) && id !in c.locks
    ensures ClientOk(ReloadStep(c, id, sh.store[c.nodes[id].a.key], arr), sh, count)
  {
    hide NodesOk, NodeOk, Shape, OneSlotEach, ThreadsOk, Untouched, Links, LinksOf, SameFor, KeysStay, ReloadStep, SharedOk, Reloads, Gains,
      StoredKeysStay;
    var e := sh.store[c.nodes[id].a.key];
    var d := ReloadStep(c, id, e, arr);
    ShapeLocks(c, id);
    ReloadStepIs(c, id, e, arr);
    ReloadDomains(c, d, id, e, arr);
    LoadedEntry(sh, count, c.nodes[id].a.key);
    ReloadShape(c, d, id, e, arr);
    forall x | x in d.nodes ensures NodeOk(x, d.nodes[x], Links(d, x), sh, count) {
      if x == id {
        ReloadNode(c, d, id, e, arr, sh, count);
      } else if x !in c.nodes {
        GainedOk(c, d, e.value.children, arr, x, sh, count);
      } else {
        ReloadOther(c, d, id, e, arr, x, sh, count);
      }
    }
    NodesFrame(c, d, sh, count, d.nodes.Keys);
    forall q | q in c.threads ensures SameFor(c, d, q) { ReloadSame(c, d, id, e, arr, q); }
    ReloadKeys(c, d, id, e, arr, sh.store);
    ThreadsFrame(c, d, sh.store, {});
  }

  lemma ShapeLocks(c: Client, id: NodeId)
    requires Shape(c) && id !in c.locks
    ensures id !in c.threads
  {
  }

  lemma ReloadDomains(c: Client, d: Client, id: NodeId, e: Entry<Record>, arr: Arrivals)
    requires Reloads(c, d, id, e, arr)
    ensures d.threads == c.threads && id in d.nodes && Gains(c, d, e.value.children, arr)
    ensures d.nodes[id].children.Keys == e.value.children.Keys
    ensures forall x :: x in c.nodes ==> x in d.nodes
  {
  }

  lemma ReloadShape(c: Client, d: Client, id: NodeId, e: Entry<Record>, arr: Arrivals)
    requires Shape(c) && OneSlotEach(c) && Reloads(c, d, id, e, arr)
    ensures Shape(d) && OneSlotEach(d)
  {
    hide Gains, Shape, OneSlotEach, Reconciled;
    ReloadDomains(c, d, id, e, arr);
    forall y | y in c.nodes && y != id ensures d.nodes[y].children == c.nodes[y].children {
      ReconciledKeeps(c.nodes[y], y, c.nodes[id].children, e.value.children);
    }
    forall name | name in d.nodes[id].children
      ensures Holds(c, id, name, d.nodes[id].children[name]) || (name in arr.ids && arr.ids[name] == d.nodes[id].children[name])
    {
      assert name in e.value.children;
      ReloadChild(c, d, id, e, arr, name);
    }
    hide Reloads, Holds;
    GainShape(c, d, id, e.value.children, arr);
  }

  lemma ReloadChild(c: Client, d: Client, id: NodeId, e: Entry<Record>, arr: Arrivals, name: bytes)
    requires Reloads(c, d, id, e, arr) && name in e.value.children
    ensures name in arr.ids && name in d.nodes[id].children
    ensures Holds(c, id, name, d.nodes[id].children[name]) || arr.ids[name] == d.nodes[id].children[name]
  {
  }

  /** Every name leads to the key that was loaded for it. */
  lemma ReloadLinks(c: Client, d: Client, id: NodeId, e: Entry<Record>, arr: Arrivals)
    requires Reloads(c, d, id, e, arr) && Shape(c) && OneSlotEach(c) && id !in c.threads
    ensures id in d.nodes && Links(d, id) == e.value.children
  {
    hide Reloads, Shape, OneSlotEach, Gains;
    ReloadDomains(c, d, id, e, arr);
    assert Kids(d, id) == d.nodes[id].children;
    forall name | name in e.value.children ensures KeyAt(d.nodes, d.nodes[id].children[name]) == e.value.children[name] {
      ReloadLink(c, d, id, e, arr, name);
    }
  }

  lemma ReloadLink(c: Client, d: Client, id: NodeId, e: Entry<Record>, arr: Arrivals, name: bytes)
    requires Reloads(c, d, id, e, arr) && Shape(c) && OneSlotEach(c) && name in e.value.children
    ensures name in d.nodes[id].children && KeyAt(d.nodes, d.nodes[id].children[name]) == e.value.children[name]
  {
    if name in c.nodes[id].children {
      var x := c.nodes[id].children[name];
      assert Holds(c, id, name, x);
      var found := NameOf(c.nodes[id].children, x);
      assert found.Some? ==> Holds(c, id, found.value, x);
      assert found == Some(name);
    }
  }

  lemma ReloadNode(c: Client, d: Client, id: NodeId, e: Entry<Record>, arr: Arrivals, sh: Shared, count: nat)
    requires Reloads(c, d, id, e, arr) && Shape(c) && OneSlotEach(c) && id !in c.threads
    requires NodesOk(c, sh, count) && c.nodes[id].a.key in sh.store && e == sh.store[c.nodes[id].a.key]
    requires EntryOk(c.nodes[id].a.key, e, sh, count)
    ensures id in d.nodes && NodeOk(id, d.nodes[id], Links(d, id), sh, count)
  {
    hide NodesOk, Links, Shape, OneSlotEach, Gains, Reconciled;
    AnyNode(c, id, sh, count);
    NodeFacts(id, c.nodes[id], Links(c, id), sh, count);
    ReloadLinks(c, d, id, e, arr);
    assert RecordOf(d.nodes[id].a, e.value.children) == e.value;
  }

  /** A node that keeps its slot keeps what it would store, and is flagged if its key changed. */
  lemma ReloadOther(c: Client, d: Client, id: NodeId, e: Entry<Record>, arr: Arrivals, x: NodeId, sh: Shared, count: nat)
    requires Reloads(c, d, id, e, arr) && Shape(c) && OneSlotEach(c) && x in c.nodes && x != id
    requires NodesOk(c, sh, count) && Stored(e.value.children, sh.store)
    ensures x in d.nodes && NodeOk(x, d.nodes[x], Links(d, x), sh, count)
  {
    hide NodesOk, NodeOk, Links, Gains, Reconciled, OneSlotEach, Shape, Stored;
    AnyNode(c, x, sh, count);
    ReloadDomains(c, d, id, e, arr);
    ReloadOtherLinks(c, d, id, e, arr, x);
    ReconciledKeeps(c.nodes[x], x, c.nodes[id].children, e.value.children);
    ReloadOtherKey(c, d, id, e, arr, x, sh.store);
    if d.nodes[x] != c.nodes[x] {
      RekeyedOk(x, c.nodes[x], d.nodes[x], Links(c, x), sh, count);
    }
  }

  lemma RekeyedOk(id: NodeId, n: Node, n': Node, links: map<bytes, Key>, sh: Shared, count: nat)
    requires NodeOk(id, n, links, sh, count) && n'.a.reloadMetadata && n'.children == n.children && n'.origin == n.origin
    requires n'.a == n.a.(key := n'.a.key, reloadMetadata := n'.a.reloadMetadata)
    requires n'.a.key == n.a.key || (n'.a.key != ROOT_KEY && id != ROOT)
    ensures NodeOk(id, n', links, sh, count)
  {
  }

  lemma ReloadOtherKey(c: Client, d: Client, id: NodeId, e: Entry<Record>, arr: Arrivals, x: NodeId, store: map<bytes, Entry<Record>>)
    requires Reloads(c, d, id, e, arr) && Shape(c) && x in c.nodes && x != id && Stored(e.value.children, store)
    ensures x in d.nodes
    ensures d.nodes[x].a.key == c.nodes[x].a.key || (d.nodes[x].a.key in store && d.nodes[x].a.key != ROOT_KEY && x != ROOT)
  {
    hide Gains, Reconciled;
    ReloadDomains(c, d, id, e, arr);
    ReconciledKeeps(c.nodes[x], x, c.nodes[id].children, e.value.children);
    if d.nodes[x].a.key != c.nodes[x].a.key {
      var name :| name in c.nodes[id].children && c.nodes[id].children[name] == x && name in e.value.children
        && d.nodes[x].a.key == e.value.children[name];
      assert Holds(c, id, name, x);
    }
  }

  /** Nobody else has a link to a child of the reloaded node. */
  lemma ReloadOtherLinks(c: Client, d: Client, id: NodeId, e: Entry<Record>, arr: Arrivals, x: NodeId)
    requires Reloads(c, d, id, e, arr) && Shape(c) && OneSlotEach(c) && x in c.nodes && x != id
    ensures x in d.nodes && Links(d, x) == Links(c, x)
  {
    hide Gains, Reconciled, Shape;
    ReloadDomains(c, d, id, e, arr);
    ReconciledKeeps(c.nodes[x], x, c.nodes[id].children, e.value.children);
    assert Kids(d, x) == Kids(c, x);
    forall m | m in Kids(c, x) ensures KeyAt(d.nodes, Kids(c, x)[m]) == KeyAt(c.nodes, Kids(c, x)[m]) {
      var y := Kids(c, x)[m];
      assert Holds(c, x, m, y);
      SlotChild(c, x, m, y);
      if y != id {
        ReconciledKeeps(c.nodes[y], y, c.nodes[id].children, e.value.children);
        assert forall name :: name in c.nodes[id].children && c.nodes[id].children[name] == y ==> Holds(c, id, name, y);
      }
    }
  }

  lemma SlotChild(c: Client, p: NodeId, name: bytes, x: NodeId)
    requires Shape(c) && Holds(c, p, name, x)
    ensures x in c.nodes && x != ROOT && x != p
  {
  }

  lemma ReloadSame(c: Client, d: Client, id: NodeId, e: Entry<Record>, arr: Arrivals, q: NodeId)
    requires Reloads(c, d, id, e, arr) && Shape(c) && q in c.threads && id !in c.locks && q != id
    ensures SameFor(c, d, q)
  {
    hide Holds, Reconciled;
    forall m | m in c.nodes && m != id ensures m in d.nodes && SameState(m, c.nodes[m], d.nodes[m]) && d.nodes[m].children == c.nodes[m].children {
      ReconciledKeeps(c.nodes[m], m, c.nodes[id].children, e.value.children);
    }
    hide SameState, Shape;
    ReloadSameRest(c, d, id, e, arr, q);
  }

  lemma ReloadSameRest(c: Client, d: Client, id: NodeId, e: Entry<Record>, arr: Arrivals, q: NodeId)
    requires Reloads(c, d, id, e, arr) && Shape(c) && q in c.threads
    ensures q in c.nodes && d.threads == c.threads && d.locks == c.locks && id in d.nodes
  {
    hide Holds, Reconciled;
  }

  lemma ReloadKeys(c: Client, d: Client, id: NodeId, e: Entry<Record>, arr: Arrivals, store: map<bytes, Entry<Record>>)
    requires Reloads(c, d, id, e, arr) && Shape(c) && Stored(e.value.children, store)
    ensures StoredKeysStay(c, d, store)
  {
    hide Gains, Reconciled, Shape, Stored;
    ReloadDomains(c, d, id, e, arr);
    forall x | x in c.nodes && KeyAt(c.nodes, x) in store ensures KeyAt(d.nodes, x) in store {
      if x != id { ReloadOtherKey(c, d, id, e, arr, x, store); }
    }
  }

  // ----- Writes and deliveries -----

  lemma WriteKeeps(c: Client, id: NodeId, content: bytes, now: int64, dirty: bool, sh: Shared, count: nat)
    requires ClientOk(c, sh, count) && Free(c, id)
    ensures var a := c.nodes[id].a;
      ClientOk(WithAttrs(c, id, a.(content := content, nanos := now, saveContent := a.saveContent || dirty)), sh, count)
  {
    hide ClientOk, NodeOk, Links;
    var n := c.nodes[id];
    var a := n.a.(content := content, nanos := now, saveContent := n.a.saveContent || dirty);
    NodesOf(c, sh, count);
    AnyNode(c, id, sh, count);
    RefreshedOk(id, n, n.(a := a), Links(c, id), sh, count);
    QuietAttrsKeep(c, id, a, sh, count);
  }

  lemma NodesOf(c: Client, sh: Shared, count: nat)
    requires ClientOk(c, sh, count)
    ensures NodesOk(c, sh, count) && Shape(c)
  {
  }

  lemma FlaggedOk(id: NodeId, n: Node, links: map<bytes, Key>, sh: Shared, count: nat)
    requires NodeOk(id, n, links, sh, count)
    ensures NodeOk(id, n.(a := n.a.(reloadMetadata := true)), links, sh, count)
  {
  }

  lemma DeliverKeeps(c: Client, key: bytes, version: uint64, sh: Shared, count: nat)
    requires ClientOk(c, sh, count) && CanDeliver(c, key)
    ensures ClientOk(Invalidate(c, key, version), sh, count)
  {
    hide ClientOk, NodeOk, Links;
    if key in c.known && c.known[key] in c.nodes {
      var id := c.known[key];
      NodesOf(c, sh, count);
      AnyNode(c, id, sh, count);
      FlaggedOk(id, c.nodes[id], Links(c, id), sh, count);
      QuietAttrsKeep(c, id, c.nodes[id].a.(reloadMetadata := true), sh, count);
    }
  }

  lemma NewClientOk(sh: Shared, count: nat)
    ensures ClientOk(NewClient(), sh, count)
  {
    var c := NewClient();
    assert Links(c, ROOT) == map[];
    assert forall p, name, x :: !Holds(c, p, name, x);
  }
}
