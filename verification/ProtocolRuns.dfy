/** What holds in every world that a run can reach. */
module ProtocolRuns {
  import opened Types
  import opened NodeCodec
  import opened Storage
  import opened NodeSpec
  import opened Protocol
  import opened ProtocolInv
  import opened ProtocolOps
  import opened ProtocolSyncs
  import opened ProtocolBegins
  import opened ProtocolLoads
  import opened ProtocolNews

  ghost predicate MemberOk(cid: ClientId, c: Client, sh: Shared, count: nat) {
    ClientOk(c, sh, count) && Informed(cid, c, sh)
  }

  ghost predicate WorldOk(w: World, count: nat) {
    && SharedOk(w.shared, count)
    && forall cid :: cid in w.clients ==> MemberOk(cid, w.clients[cid], w.shared, count)
  }

  // ----- One step -----

  /** The stores grow by every step. */
  ghost predicate SpreadOk(hash: bytes -> bytes, w: World, l: Label, count: nat)
    requires Enabled(w, l)
  {
    Grows(w.shared, Spread(hash, w, l)) && SharedOk(Spread(hash, w, l), count + 1)
  }

  lemma SharedOkMore(sh: Shared, sh': Shared, count: nat)
    requires SharedOk(sh, count) && sh' == sh.(blobs := sh'.blobs, pending := sh'.pending)
    ensures SharedOk(sh', count + 1)
  {
    forall k | k in sh'.store ensures EntryOk(k, sh'.store[k], sh', count + 1) {
      assert EntryOk(k, sh.store[k], sh, count);
    }
    forall k, v | (k, v) in sh'.log ensures PutOk(k, v, sh') {
      assert PutOk(k, v, sh);
    }
  }

  lemma BlobsGrow(hash: bytes -> bytes, c: Client, blobs: map<bytes, bytes>, p: NodeId, fault: Fault)
    requires CanSync(c, p, false)
    ensures forall k :: k in blobs ==> k in BlobStep(hash, c, blobs, p, fault).1
  {
    hide Abort;
  }

  lemma SpreadKeeps(hash: bytes -> bytes, w: World, l: Label, count: nat)
    requires WorldOk(w, count) && Enabled(w, l) && count < MAX_UINT64
    ensures SpreadOk(hash, w, l, count)
  {
    hide ClientOk, Informed, SharedOk, BlobStep, Landed, RecordFor;
    match l
    case SyncMeta(cid, p, fault) =>
      var c := w.clients[cid];
      assert MemberOk(cid, c, w.shared, count);
      assert c.threads[p].todo[0] in c.threads[p].todo;
      MetaStepKeeps(w.clients.Keys, cid, c, p, fault, w.shared, count);
      assert RecordFor(c, c.threads[p].todo[0]) == RecordOf(c.nodes[c.threads[p].todo[0]].a, LinksOf(c.nodes, c.nodes[c.threads[p].todo[0]].children)) by {
        RecordForIs(c, c.threads[p].todo[0]);
      }
    case SyncBlob(cid, p, fault) =>
      BlobsGrow(hash, w.clients[cid], w.shared.blobs, p, fault);
      SharedOkMore(w.shared, Spread(hash, w, l), count);
    case _ =>
      SharedOkMore(w.shared, Spread(hash, w, l), count);
  }

  lemma RecordForIs(c: Client, m: NodeId)
    requires m in c.nodes
    ensures RecordFor(c, m) == RecordOf(c.nodes[m].a, LinksOf(c.nodes, c.nodes[m].children))
  {
  }

  /** The client that moves, against the stores before the step. */
  lemma MovedKeeps(hash: bytes -> bytes, w: World, l: Label, count: nat)
    requires WorldOk(w, count) && Enabled(w, l) && !l.SyncMeta?
    ensures ClientOk(Moved(hash, w, l), w.shared, count)
  {
    hide ClientOk, Informed, SharedOk, BlobStep, LoadInto, ReloadStep, Begin, Invalidate, CanBegin, NewClient;
    var sh := w.shared;
    if !l.Mount? { assert MemberOk(Mover(l), w.clients[Mover(l)], sh, count); }
    match l
    case Mount(_, arr) =>
      NewClientOk(sh, count);
      NewClientIsPristine();
      if ROOT_KEY in sh.store { LoadKeeps(NewClient(), ROOT, arr, sh, count); }
    case Start(cid, p, op) =>
      BeginsOnNode(w.clients[cid], sh.store, p, op);
      AnyBeginKeeps(w.clients[cid], p, op, sh, count);
      RememberKeeps(Begin(w.clients[cid], sh.store, p, op), p, w.clients[cid].nodes[p], sh, count);
    case SyncBlob(cid, p, fault) => BlobStepKeeps(hash, w.clients[cid], p, fault, sh, count);
    case SyncMeta(cid, p, fault) =>
    case Reload(cid, id, arr) => ReloadKeeps(w.clients[cid], id, arr, sh, count);
    case LoadChild(cid, id, name, arr) =>
      UnloadedChild(w.clients[cid], id, name, sh, count);
      LoadKeeps(w.clients[cid], w.clients[cid].nodes[id].children[name], arr, sh, count);
    case Write(cid, id, content, now, dirty) => WriteKeeps(w.clients[cid], id, content, now, dirty, sh, count);
    case Deliver(cast) => DeliverKeeps(w.clients[cast.to], cast.key, cast.version, sh, count);
  }

  lemma RememberKeeps(c: Client, p: NodeId, n: Node, sh: Shared, count: nat)
    requires ClientOk(c, sh, count)
    ensures ClientOk(Remember(c, p, n), sh, count)
  {
    hide NodesOk, NodeOk, Shape, OneSlotEach, ThreadsOk, Untouched, SameFor, KeysStay;
    var d := Remember(c, p, n);
    RememberShape(c, p, n);
    forall id | id in d.nodes ensures Untouched(c, d, id) { RememberUntouched(c, p, n, id); }
    NodesFrame(c, d, sh, count, {});
    forall q | q in d.threads ensures SameFor(c, d, q) { RememberSame(c, p, n, q); }
    KeysStayStored(c, d, sh.store);
    ThreadsFrame(c, d, sh.store, {});
  }

  lemma RememberShape(c: Client, p: NodeId, n: Node)
    requires Shape(c) && OneSlotEach(c)
    ensures Shape(Remember(c, p, n)) && OneSlotEach(Remember(c, p, n)) && KeysStay(c, Remember(c, p, n))
  {
    var d := Remember(c, p, n);
    forall q, m, x | Holds(d, q, m, x) ensures Holds(c, q, m, x) {
    }
    FewerSlots(c, d);
  }

  lemma RememberUntouched(c: Client, p: NodeId, n: Node, id: NodeId)
    requires id in c.nodes
    ensures Untouched(c, Remember(c, p, n), id)
  {
  }

  lemma RememberSame(c: Client, p: NodeId, n: Node, q: NodeId)
    requires Shape(c) && q in c.threads
    ensures SameFor(c, Remember(c, p, n), q)
  {
    hide Holds;
  }

  lemma BeginsOnNode(c: Client, store: map<bytes, Entry<Record>>, p: NodeId, op: Op)
    requires CanBegin(c, store, p, op)
    ensures p in c.nodes
  {
  }

  lemma RememberInformed(cid: ClientId, c: Client, p: NodeId, n: Node, sh: Shared)
    requires Informed(cid, c, sh)
    ensures Informed(cid, Remember(c, p, n), sh)
  {
  }

  lemma NewClientIsPristine()
    ensures ROOT in NewClient().nodes && Pristine(NewClient().nodes[ROOT]) && NewClient().nodes[ROOT].a.key == ROOT_KEY
    ensures NewClient().threads == map[] && NewClient().locks == map[]
  {
  }

  /** A child whose mode says that it was not loaded was indeed never filled. */
  lemma UnloadedChild(c: Client, id: NodeId, name: bytes, sh: Shared, count: nat)
    requires ClientOk(c, sh, count) && id in c.nodes && name in c.nodes[id].children
    requires c.nodes[id].children[name] in c.nodes && c.nodes[c.nodes[id].children[name]].a.mode == MODE_NOT_LOADED
    ensures var x := c.nodes[id].children[name];
      Pristine(c.nodes[x]) && !IsLoaded(x, c.nodes[x]) && x !in c.threads
  {
    hide OneSlotEach, UndoOk;
    var x := c.nodes[id].children[name];
    assert Holds(c, id, name, x);
    assert NodeOk(x, c.nodes[x], Links(c, x), sh, count);
    if x in c.threads {
      Own(c, x, sh, count);
    }
  }

  lemma StepKeeps(hash: bytes -> bytes, w: World, l: Label, count: nat)
    requires WorldOk(w, count) && count < MAX_UINT64 && Step(hash, w, l).Some?
    ensures WorldOk(Step(hash, w, l).value, count + 1)
  {
    hide WorldOk, Enabled, Moved, Spread, ClientOk, Informed, SharedOk, Grows;
    SpreadKeeps(hash, w, l, count);
    var w' := Step(hash, w, l).value;
    forall cid | cid in w'.clients ensures MemberOk(cid, w'.clients[cid], w'.shared, count + 1) {
      if cid == Mover(l) {
        MoverKeeps(hash, w, l, count);
      } else {
        OtherKeeps(hash, w, l, count, cid);
      }
    }
    WorldIs(w', count + 1);
  }

  lemma WorldIs(w: World, count: nat)
    requires SharedOk(w.shared, count)
    requires forall cid :: cid in w.clients ==> MemberOk(cid, w.clients[cid], w.shared, count)
    ensures WorldOk(w, count)
  {
  }

  lemma MoverKeeps(hash: bytes -> bytes, w: World, l: Label, count: nat)
    requires WorldOk(w, count) && count < MAX_UINT64 && Enabled(w, l)
    ensures MemberOk(Mover(l), Moved(hash, w, l), Spread(hash, w, l), count + 1)
  {
    hide Moved, Spread, ClientOk, Informed, SharedOk, Grows;
    SpreadKeeps(hash, w, l, count);
    MoverInformed(hash, w, l, count);
    if l.SyncMeta? {
      MetaMoverKeeps(hash, w, l, count);
    } else {
      MovedKeeps(hash, w, l, count);
      ClientOkGrows(Moved(hash, w, l), w.shared, Spread(hash, w, l), count, count + 1);
    }
  }

  lemma MetaMoverKeeps(hash: bytes -> bytes, w: World, l: Label, count: nat)
    requires WorldOk(w, count) && count < MAX_UINT64 && Enabled(w, l) && l.SyncMeta?
    ensures ClientOk(Moved(hash, w, l), Spread(hash, w, l), count + 1)
  {
    hide ClientOk, Informed, SharedOk, Grows, MetaStep, Landed, RecordFor;
    var c, p := w.clients[l.cid], l.p;
    assert MemberOk(l.cid, c, w.shared, count);
    assert c.threads[p].todo[0] in c.threads[p].todo;
    RecordForIs(c, c.threads[p].todo[0]);
    MetaStepKeeps(w.clients.Keys, l.cid, c, p, l.fault, w.shared, count);
  }

  lemma MoverInformed(hash: bytes -> bytes, w: World, l: Label, count: nat)
    requires WorldOk(w, count) && Enabled(w, l)
    ensures Informed(Mover(l), Moved(hash, w, l), Spread(hash, w, l))
  {
    hide ClientOk, Informed, SharedOk, BlobStep, LoadInto, ReloadStep, Begin, CanBegin, NewClient, MetaStep, Landed, RecordFor,
      StaysInformed, Shape, Invalidate;
    var sh, cid := w.shared, Mover(l);
    if !l.Mount? {
      assert MemberOk(cid, w.clients[cid], sh, count);
      NodesOf(w.clients[cid], sh, count);
    }
    match l
    case Mount(_, arr) => MountInformed(cid, arr, sh, count);
    case Start(_, p, op) =>
      BeginsOnNode(w.clients[cid], sh.store, p, op);
      BeginInformed(w.clients[cid], p, op, sh, count);
      InformedStays(cid, w.clients[cid], Begin(w.clients[cid], sh.store, p, op), sh);
      RememberInformed(cid, Begin(w.clients[cid], sh.store, p, op), p, w.clients[cid].nodes[p], sh);
    case SyncBlob(_, p, fault) =>
      BlobInformed(hash, w.clients[cid], p, fault, sh, count);
      var (d, blobs) := BlobStep(hash, w.clients[cid], sh.blobs, p, fault);
      InformedStays(cid, w.clients[cid], d, sh);
      InformedAnyBlobs(cid, d, sh, blobs);
    case SyncMeta(_, p, fault) =>
      var c := w.clients[cid];
      assert c.threads[p].todo[0] in c.threads[p].todo;
      RecordForIs(c, c.threads[p].todo[0]);
      MetaInformed(w.clients.Keys, cid, c, p, fault, sh, count);
    case Reload(_, id, arr) =>
      ReloadInformed(w.clients[cid], id, arr, sh);
      InformedStays(cid, w.clients[cid], ReloadStep(w.clients[cid], id, sh.store[w.clients[cid].nodes[id].a.key], arr), sh);
    case LoadChild(_, id, name, arr) =>
      var x := w.clients[cid].nodes[id].children[name];
      LoadInformed(w.clients[cid], x, arr, sh);
      InformedStays(cid, w.clients[cid], LoadInto(w.clients[cid], x, sh.store[w.clients[cid].nodes[x].a.key], arr), sh);
    case Write(_, id, content, now, dirty) => WriteInformed(cid, w.clients[cid], id, content, now, dirty, sh);
    case Deliver(cast) => DeliverInformed(cid, w.clients[cid], cast, sh);
  }

  lemma InformedAnyBlobs(cid: ClientId, c: Client, sh: Shared, blobs: map<bytes, bytes>)
    requires Informed(cid, c, sh)
    ensures Informed(cid, c, sh.(blobs := blobs))
  {
  }

  lemma WriteInformed(cid: ClientId, c: Client, id: NodeId, content: bytes, now: int64, dirty: bool, sh: Shared)
    requires Informed(cid, c, sh) && Shape(c) && id in c.nodes
    ensures var a := c.nodes[id].a;
      Informed(cid, WithAttrs(c, id, a.(content := content, nanos := now, saveContent := a.saveContent || dirty)), sh)
  {
    hide Informed, Shape, StaysInformed;
    var a := c.nodes[id].a;
    var d := WithAttrs(c, id, a.(content := content, nanos := now, saveContent := a.saveContent || dirty));
    AllKeepUp(c, d, sh.store);
    InformedStays(cid, c, d, sh);
  }

  lemma MountInformed(cid: ClientId, arr: Arrivals, sh: Shared, count: nat)
    requires ROOT_KEY in sh.store ==> CanLoad(NewClient(), sh.store, ROOT, arr)
    ensures Informed(cid, if ROOT_KEY in sh.store then LoadInto(NewClient(), ROOT, sh.store[ROOT_KEY], arr) else NewClient(), sh)
  {
    hide LoadInto, Arrive;
    if ROOT_KEY in sh.store {
      LoadIntoIs(NewClient(), ROOT, sh.store[ROOT_KEY], arr);
    }
  }

  lemma OtherKeeps(hash: bytes -> bytes, w: World, l: Label, count: nat, cid: ClientId)
    requires WorldOk(w, count) && count < MAX_UINT64 && Enabled(w, l) && cid in w.clients && cid != Mover(l)
    ensures MemberOk(cid, w.clients[cid], Spread(hash, w, l), count + 1)
  {
    hide ClientOk, Informed, SharedOk, Grows, BlobStep, Landed;
    SpreadKeeps(hash, w, l, count);
    var c, sh := w.clients[cid], w.shared;
    assert MemberOk(cid, c, sh, count);
    ClientOkGrows(c, sh, Spread(hash, w, l), count, count + 1);
    match l
    case SyncMeta(by_, p, fault) =>
      var b := w.clients[by_];
      var m := b.threads[p].todo[0];
      assert m in b.threads[p].todo;
      OthersPutInformed(w.clients.Keys, cid, c, sh, by_, m, b.nodes[m], RecordOf(b.nodes[m].a, LinksOf(b.nodes, b.nodes[m].children)), fault);
    case SyncBlob(by_, p, fault) => InformedAnyBlobs(cid, c, sh, BlobStep(hash, w.clients[by_], sh.blobs, p, fault).1);
    case Deliver(cast) => OthersDeliverInformed(cid, c, cast, sh);
    case _ =>
  }

  // ----- All runs -----

  lemma {:induction false} ReachableOk(hash: bytes -> bytes, run: seq<Label>)
    requires |run| <= MAX_UINT64 as int
    ensures Exec(hash, run).Some? ==> WorldOk(Exec(hash, run).value, |run|)
    decreases |run|
  {
    hide WorldOk, Step;
    if run == [] {
      EmptyWorldOk(hash);
    } else {
      var less := run[..|run| - 1];
      ReachableOk(hash, less);
      match Exec(hash, less)
      case None =>
      case Some(w) =>
        if Step(hash, w, run[|run| - 1]).Some? { StepKeeps(hash, w, run[|run| - 1], |less|); }
    }
  }

  lemma EmptyWorldOk(hash: bytes -> bytes)
    ensures WorldOk(NOTHING, 0)
  {
  }
}
