/** Content keys lead to content: what is stored in the blob store before metadata refer to it. */
module ProtocolContent {
  import opened Types
  import opened NodeCodec
  import opened Storage
  import opened NodeSpec
  import opened Protocol
  import opened ProtocolInv
  import opened ProtocolOps
  import opened ProtocolSyncs
  import opened ProtocolBegins
  import opened ProtocolLoads
  import opened ProtocolNews
  import opened ProtocolRuns

  predicate Resolves(contentKey: bytes, blobs: map<bytes, bytes>) {
    contentKey == [] || contentKey in blobs
  }

  /** The content key of a node leads to a blob; or, if the claim is not strict, the node has content that
      will replace the key before it is stored. */
  predicate IsSafe(a: Attrs, blobs: map<bytes, bytes>, strict: bool) {
    Resolves(a.contentKey, blobs) || (!strict && a.saveContent)
  }

  ghost predicate NodesResolve(nodes: map<NodeId, Node>, blobs: map<bytes, bytes>, strict: bool) {
    forall id :: id in nodes ==> IsSafe(nodes[id].a, blobs, strict)
  }

  ghost predicate ThreadsResolve(threads: map<NodeId, Thread>, blobs: map<bytes, bytes>) {
    forall p :: p in threads && threads[p].undo.Unflush? ==> Resolves(threads[p].undo.contentKey, blobs)
  }

  ghost predicate ClientResolves(c: Client, blobs: map<bytes, bytes>, strict: bool) {
    NodesResolve(c.nodes, blobs, strict) && (strict ==> ThreadsResolve(c.threads, blobs))
  }

  ghost predicate StoreResolves(sh: Shared) {
    forall k :: k in sh.store ==> Resolves(sh.store[k].value.contentKey, sh.blobs)
  }

  ghost predicate AllResolve(w: World, strict: bool) {
    StoreResolves(w.shared) && forall cid :: cid in w.clients ==> ClientResolves(w.clients[cid], w.shared.blobs, strict)
  }

  /** No blob gets lost on its way to the blob store, but in a Flush. */
  predicate KeepsBlobs(w: World, l: Label) {
    l.SyncBlob? && l.fault == Lost && l.cid in w.clients && l.p in w.clients[l.cid].threads ==>
      w.clients[l.cid].threads[l.p].undo.Unflush?
  }

  /** This outcome of its metadata put takes a Flush back, after its content half was done. */
  predicate RollsBack(c: Client, store: map<bytes, Entry<Record>>, p: NodeId, fault: Fault)
    requires CanSync(c, p, true)
  {
    c.threads[p].undo.Unflush? &&
    var m := c.threads[p].todo[0];
    assert m in c.threads[p].todo;
    !SyncMetadata(c.nodes[m].a, RecordOf(c.nodes[m].a, LinksOf(c.nodes, c.nodes[m].children)), store, fault).2
  }

  /** If the step takes a Flush back after its content half was done, the content key that it restores
      leads to a blob. */
  ghost predicate RestoresWell(w: World, l: Label) {
    l.SyncMeta? && Enabled(w, l) && RollsBack(w.clients[l.cid], w.shared.store, l.p, l.fault) ==>
      Resolves(w.clients[l.cid].threads[l.p].undo.contentKey, w.shared.blobs)
  }

  // ----- The steps of a client -----

  lemma BegunResolves(c: Client, p: NodeId, n: Node, locked: set<NodeId>, undo: Undo, blobs: map<bytes, bytes>, strict: bool)
    requires ClientResolves(c, blobs, strict) && p in c.nodes && n.a.contentKey == c.nodes[p].a.contentKey
    requires c.nodes[p].a.saveContent ==> n.a.saveContent
    requires undo.Unflush? ==> undo.contentKey == n.a.contentKey
    ensures ClientResolves(Begun(c, p, n, locked, undo), blobs, strict)
  {
  }

  lemma BeginResolves(c: Client, store: map<bytes, Entry<Record>>, p: NodeId, op: Op, blobs: map<bytes, bytes>, strict: bool)
    requires ClientResolves(c, blobs, strict) && CanBegin(c, store, p, op)
    ensures ClientResolves(Begin(c, store, p, op), blobs, strict)
  {
    hide ClientResolves, BeginCreate, BeginRename, Changed, Mark, WithChildren, Open;
    var n := c.nodes[p];
    match op
    case Setxattr(attr, value) => SetxattrResolves(c, store, p, attr, value, blobs, strict);
    case Setattr(change, resized, now) => SetattrResolves(c, store, p, change, resized, now, blobs, strict);
    case Flush => FlushResolves(c, store, p, blobs, strict);
    case Rmdir(name) => RemoveResolves(c, p, name, {p, n.children[name]}, Relink(name, n.children[name]), blobs, strict);
    case Unlink(name) =>
      RemoveResolves(c, p, name, {p}, if name in n.children then Relink(name, n.children[name]) else Nothing, blobs, strict);
    case Create(name, kind, child, key, mode, now, target) =>
      var m := NewChild(kind, key, mode, now, target);
      BeginCreateIs(c, p, name, kind, child, key, m);
      CreatedResolves(c, Begin(c, store, p, op), p, name, child, blobs, strict);
    case Rename(name, to, newName) =>
      BeginRenameIs(c, p, name, to, newName);
      RenamedResolves(c, Begin(c, store, p, op), p, name, c.nodes[p].children[name], to, newName, blobs, strict);
  }

  lemma SetxattrResolves(c: Client, store: map<bytes, Entry<Record>>, p: NodeId, attr: bytes, value: bytes, blobs: map<bytes, bytes>, strict: bool)
    requires ClientResolves(c, blobs, strict) && CanBegin(c, store, p, Setxattr(attr, value))
    ensures ClientResolves(Begin(c, store, p, Setxattr(attr, value)), blobs, strict)
  {
    hide ClientResolves;
    var a := c.nodes[p].a;
    var was := if attr in a.xattrs then Some(a.xattrs[attr]) else None;
    BegunResolves(c, p, c.nodes[p].(a := a.(xattrs := a.xattrs[attr := value], saveMetadata := true)), {p}, Xattr(attr, was), blobs, strict);
  }

  lemma SetattrResolves(c: Client, store: map<bytes, Entry<Record>>, p: NodeId, change: Change, resized: bytes, now: int64, blobs: map<bytes, bytes>, strict: bool)
    requires ClientResolves(c, blobs, strict) && CanBegin(c, store, p, Setattr(change, resized, now))
    ensures ClientResolves(Begin(c, store, p, Setattr(change, resized, now)), blobs, strict)
  {
    hide ClientResolves;
    var a := c.nodes[p].a;
    BegunResolves(c, p, c.nodes[p].(a := Changed(a, change, resized, now)), {p}, Attributes(change, a), blobs, strict);
  }

  lemma FlushResolves(c: Client, store: map<bytes, Entry<Record>>, p: NodeId, blobs: map<bytes, bytes>, strict: bool)
    requires ClientResolves(c, blobs, strict) && CanBegin(c, store, p, Flush)
    ensures ClientResolves(Begin(c, store, p, Flush), blobs, strict)
  {
    hide ClientResolves;
    assert c.nodes[p := c.nodes[p]] == c.nodes;
    BegunResolves(c, p, c.nodes[p], {p}, Unflush(c.nodes[p].a.contentKey), blobs, strict);
  }

  lemma RemoveResolves(c: Client, p: NodeId, name: bytes, locked: set<NodeId>, undo: Undo, blobs: map<bytes, bytes>, strict: bool)
    requires ClientResolves(c, blobs, strict) && p in c.nodes && !undo.Unflush?
    ensures ClientResolves(Open(Mark(WithChildren(c, p, c.nodes[p].children - {name}), p), p, locked, [p], undo), blobs, strict)
  {
    hide ClientResolves, Mark, WithChildren;
    MarkedWithoutChild(c, p, name);
    BegunResolves(c, p, WithoutChild(c.nodes[p], name), locked, undo, blobs, strict);
  }

  lemma CreatedResolves(c: Client, d: Client, p: NodeId, name: bytes, child: NodeId, blobs: map<bytes, bytes>, strict: bool)
    requires Creates(c, d, p, name, child) && ClientResolves(c, blobs, strict) && d.nodes[child].a.contentKey == []
    ensures ClientResolves(d, blobs, strict)
  {
  }

  lemma RenamedResolves(c: Client, d: Client, p: NodeId, name: bytes, x: NodeId, to: NodeId, newName: bytes, blobs: map<bytes, bytes>, strict: bool)
    requires Renames(c, d, p, name, x, to, newName) && ClientResolves(c, blobs, strict)
    ensures ClientResolves(d, blobs, strict)
  {
  }

  lemma AbortResolves(c: Client, p: NodeId, blobs: map<bytes, bytes>, strict: bool)
    requires ClientResolves(c, blobs, strict) && p in c.threads && p in c.nodes
    requires c.threads[p].undo.Unflush? ==> strict || c.nodes[p].a.saveContent || Resolves(c.threads[p].undo.contentKey, blobs)
    ensures ClientResolves(Abort(c, p), blobs, strict)
  {
  }

  lemma AttrsResolve(c: Client, id: NodeId, a: Attrs, blobs: map<bytes, bytes>, strict: bool)
    requires ClientResolves(c, blobs, strict) && id in c.nodes && IsSafe(a, blobs, strict)
    ensures ClientResolves(WithAttrs(c, id, a), blobs, strict)
  {
  }

  lemma SavedResolves(c: Client, id: NodeId, n: Node, blobs: map<bytes, bytes>, strict: bool)
    requires ClientResolves(c, blobs, strict) && id in c.nodes && IsSafe(n.a, blobs, strict)
    ensures ClientResolves(WithNode(c, id, n), blobs, strict)
  {
  }

  lemma MoreBlobs(c: Client, blobs: map<bytes, bytes>, more: map<bytes, bytes>, strict: bool)
    requires ClientResolves(c, blobs, strict) && forall k :: k in blobs ==> k in more
    ensures ClientResolves(c, more, strict)
  {
  }

  /** A Flush syncs its own node only. */
  predicate FlushesItself(c: Client, p: NodeId)
    requires p in c.threads
  {
    c.threads[p].undo.Unflush? ==> c.threads[p].todo == [p]
  }

  /** The content goes to the blob store before its key can go to the metadata store; if it does not get
      there, a Flush takes the key back, and any other operation leaves the content dirty. */
  lemma BlobResolves(hash: bytes -> bytes, c: Client, p: NodeId, fault: Fault, blobs: map<bytes, bytes>, strict: bool)
    requires ClientResolves(c, blobs, strict) && CanSync(c, p, false) && FlushesItself(c, p)
    requires strict && fault == Lost ==> c.threads[p].undo.Unflush?
    ensures var (d, more) := BlobStep(hash, c, blobs, p, fault);
      ClientResolves(d, more, strict) && forall k :: k in blobs ==> k in more
  {
    hide ClientResolves, Abort;
    var m := c.threads[p].todo[0];
    assert m in c.threads[p].todo;
    var (a, more, ok) := SyncContent(c.nodes[m].a, hash, blobs, fault);
    MoreBlobs(c, blobs, more, strict);
    NodeResolves(c, m, more, strict);
    if strict && fault == Lost {
      if ok { AttrsResolve(c, m, a, more, strict); BlobDoneResolves(WithAttrs(c, m, a), p, more, strict); }
      else { LostFlushResolves(c, p, a, more); }
      return;
    }
    AttrsResolve(c, m, a, more, strict);
    if ok {
      BlobDoneResolves(WithAttrs(c, m, a), p, more, strict);
    } else {
      AbortResolves(WithAttrs(c, m, a), p, more, strict);
    }
  }

  lemma LostFlushResolves(c: Client, p: NodeId, a: Attrs, blobs: map<bytes, bytes>)
    requires ClientResolves(c, blobs, true) && p in c.threads && p in c.nodes && c.threads[p].undo.Unflush?
    ensures ClientResolves(Abort(WithAttrs(c, p, a), p), blobs, true)
  {
  }

  lemma NodeResolves(c: Client, id: NodeId, blobs: map<bytes, bytes>, strict: bool)
    requires ClientResolves(c, blobs, strict) && id in c.nodes
    ensures IsSafe(c.nodes[id].a, blobs, strict)
  {
  }

  lemma BlobDoneResolves(c: Client, p: NodeId, blobs: map<bytes, bytes>, strict: bool)
    requires ClientResolves(c, blobs, strict) && p in c.threads
    ensures ClientResolves(c.(threads := c.threads[p := c.threads[p].(blobDone := true)]), blobs, strict)
  {
  }

  lemma AdvanceResolves(c: Client, p: NodeId, blobs: map<bytes, bytes>, strict: bool)
    requires ClientResolves(c, blobs, strict) && p in c.threads && c.threads[p].todo != []
    requires forall m :: m in c.threads[p].todo ==> m in c.nodes
    ensures ClientResolves(Advance(c, p), blobs, strict)
  {
  }

  lemma MetaResolves(c: Client, store: map<bytes, Entry<Record>>, p: NodeId, fault: Fault, blobs: map<bytes, bytes>, strict: bool)
    requires ClientResolves(c, blobs, strict) && CanSync(c, p, true)
    requires strict || !RollsBack(c, store, p, fault) || Resolves(c.threads[p].undo.contentKey, blobs)
    ensures ClientResolves(MetaStep(c, store, p, fault), blobs, strict)
  {
    hide ClientResolves, Abort, Advance, LinksOf;
    var m := c.threads[p].todo[0];
    assert m in c.threads[p].todo;
    var (a, _, ok) := SyncMetadata(c.nodes[m].a, RecordOf(c.nodes[m].a, LinksOf(c.nodes, c.nodes[m].children)), store, fault);
    NodeResolves(c, m, blobs, strict);
    if ok {
      SavedResolves(c, m, Saved(c.nodes[m], a), blobs, strict);
      AdvanceResolves(WithNode(c, m, Saved(c.nodes[m], a)), p, blobs, strict);
    } else {
      AttrsResolve(c, m, a, blobs, strict);
      AbortResolves(WithAttrs(c, m, a), p, blobs, strict);
    }
  }

  lemma LandedResolves(clients: set<ClientId>, sh: Shared, cid: ClientId, m: NodeId, n: Node, record: Record, fault: Fault)
    requires StoreResolves(sh) && Resolves(record.contentKey, sh.blobs)
    ensures StoreResolves(Landed(clients, sh, cid, m, n, record, fault))
  {
  }

  lemma LoadResolves(c: Client, id: NodeId, arr: Arrivals, sh: Shared, strict: bool)
    requires ClientResolves(c, sh.blobs, strict) && StoreResolves(sh) && CanLoad(c, sh.store, id, arr)
    ensures ClientResolves(LoadInto(c, id, sh.store[c.nodes[id].a.key], arr), sh.blobs, strict)
  {
    hide LoadInto, Arrive;
    var e := sh.store[c.nodes[id].a.key];
    var d := LoadInto(c, id, e, arr);
    LoadIntoIs(c, id, e, arr);
    forall x | x in d.nodes && x !in c.nodes ensures d.nodes[x].a.contentKey == [] {
      var name :| name in arr.ids && arr.ids[name] == x;
    }
  }

  lemma ReloadResolves(c: Client, id: NodeId, arr: Arrivals, sh: Shared, strict: bool)
    requires ClientResolves(c, sh.blobs, strict) && StoreResolves(sh) && CanLoad(c, sh.store, id, arr)
    ensures ClientResolves(ReloadStep(c, id, sh.store[c.nodes[id].a.key], arr), sh.blobs, strict)
  {
    hide ReloadStep, Arrive, Reconciled;
    var e := sh.store[c.nodes[id].a.key];
    var d := ReloadStep(c, id, e, arr);
    ReloadStepIs(c, id, e, arr);
    forall x | x in d.nodes && x !in c.nodes ensures d.nodes[x].a.contentKey == [] {
      var name :| name in arr.ids && arr.ids[name] == x;
    }
    forall x | x in c.nodes
      ensures var n := Reconciled(c.nodes[x], x, c.nodes[id].children, e.value.children);
        n.a.contentKey == c.nodes[x].a.contentKey && n.a.saveContent == c.nodes[x].a.saveContent
    {
      ReconciledKeeps(c.nodes[x], x, c.nodes[id].children, e.value.children);
    }
  }

  // ----- Worlds -----

  /** What makes a step keep the claim: in its strict form, no blob is lost but in a Flush. */
  ghost predicate Harmless(w: World, l: Label, strict: bool) {
    if strict then KeepsBlobs(w, l) else RestoresWell(w, l)
  }

  /** The operation of a sync step. */
  lemma SyncFacts(hash: bytes -> bytes, w: World, cid: ClientId, p: NodeId, blobDone: bool, count: nat)
    requires WorldOk(w, count) && cid in w.clients && CanSync(w.clients[cid], p, blobDone)
    ensures var c := w.clients[cid];
      var m := c.threads[p].todo[0];
      FlushesItself(c, p) && m in c.nodes && (blobDone ==> !c.nodes[m].a.saveContent)
  {
    hide Shape, OneSlotEach, NodesOk, Informed, SharedOk, Held;
    assert MemberOk(cid, w.clients[cid], w.shared, count);
    assert ThreadOk(w.clients[cid], p, w.shared.store);
  }

  lemma SpreadResolves(hash: bytes -> bytes, w: World, l: Label, strict: bool, count: nat)
    requires WorldOk(w, count) && AllResolve(w, strict) && Enabled(w, l) && Harmless(w, l, strict)
    ensures StoreResolves(Spread(hash, w, l)) && forall k :: k in w.shared.blobs ==> k in Spread(hash, w, l).blobs
  {
    hide WorldOk, ClientResolves, BlobStep, Landed, LinksOf, FlushesItself;
    match l
    case SyncBlob(cid, p, fault) =>
      SyncFacts(hash, w, cid, p, false, count);
      BlobResolves(hash, w.clients[cid], p, fault, w.shared.blobs, strict);
    case SyncMeta(cid, p, fault) =>
      SyncFacts(hash, w, cid, p, true, count);
      var c := w.clients[cid];
      var m := c.threads[p].todo[0];
      var record := RecordOf(c.nodes[m].a, LinksOf(c.nodes, c.nodes[m].children));
      NodeResolves(c, m, w.shared.blobs, strict);
      LandedResolves(w.clients.Keys, w.shared, cid, m, c.nodes[m], record, fault);
      LandedBlobs(w.clients.Keys, w.shared, cid, m, c.nodes[m], record, fault);
    case _ =>
  }

  lemma LandedBlobs(clients: set<ClientId>, sh: Shared, cid: ClientId, m: NodeId, n: Node, record: Record, fault: Fault)
    ensures Landed(clients, sh, cid, m, n, record, fault).blobs == sh.blobs
  {
  }

  lemma MovedResolves(hash: bytes -> bytes, w: World, l: Label, strict: bool, count: nat)
    requires WorldOk(w, count) && AllResolve(w, strict) && Enabled(w, l) && Harmless(w, l, strict)
    ensures ClientResolves(Moved(hash, w, l), Spread(hash, w, l).blobs, strict)
  {
    hide WorldOk, ClientResolves, StoreResolves, BlobStep, Landed, MetaStep, LoadInto, ReloadStep, Begin, NewClient, CanLoad, LinksOf, RollsBack, FlushesItself;
    var sh := w.shared;
    match l
    case Mount(_, arr) =>
      NewClientResolves(sh.blobs, strict);
      if ROOT_KEY in sh.store { LoadResolves(NewClient(), ROOT, arr, sh, strict); }
    case Start(cid, p, op) => BeginResolves(w.clients[cid], sh.store, p, op, sh.blobs, strict);
      RememberResolves(Begin(w.clients[cid], sh.store, p, op), p, w.clients[cid].nodes[p], sh.blobs, strict);
    case SyncBlob(cid, p, fault) =>
      SyncFacts(hash, w, cid, p, false, count);
      BlobResolves(hash, w.clients[cid], p, fault, sh.blobs, strict);
    case SyncMeta(cid, p, fault) =>
      SyncFacts(hash, w, cid, p, true, count);
      var c := w.clients[cid];
      var m := c.threads[p].todo[0];
      MetaResolves(c, sh.store, p, fault, sh.blobs, strict);
      LandedBlobs(w.clients.Keys, sh, cid, m, c.nodes[m], RecordOf(c.nodes[m].a, LinksOf(c.nodes, c.nodes[m].children)), fault);
    case Reload(cid, id, arr) => ReloadResolves(w.clients[cid], id, arr, sh, strict);
    case LoadChild(cid, id, name, arr) => LoadResolves(w.clients[cid], w.clients[cid].nodes[id].children[name], arr, sh, strict);
    case Write(cid, id, content, now, dirty) =>
      var a := w.clients[cid].nodes[id].a;
      NodeResolves(w.clients[cid], id, sh.blobs, strict);
      AttrsResolve(w.clients[cid], id, a.(content := content, nanos := now, saveContent := a.saveContent || dirty), sh.blobs, strict);
    case Deliver(cast) =>
      var c := w.clients[cast.to];
      if cast.key in c.known && c.known[cast.key] in c.nodes {
        NodeResolves(c, c.known[cast.key], sh.blobs, strict);
        AttrsResolve(c, c.known[cast.key], c.nodes[c.known[cast.key]].a.(reloadMetadata := true), sh.blobs, strict);
      }
  }

  lemma RememberResolves(c: Client, p: NodeId, n: Node, blobs: map<bytes, bytes>, strict: bool)
    requires ClientResolves(c, blobs, strict)
    ensures ClientResolves(Remember(c, p, n), blobs, strict)
  {
  }

  lemma NewClientResolves(blobs: map<bytes, bytes>, strict: bool)
    ensures ClientResolves(NewClient(), blobs, strict) && ROOT in NewClient().nodes && NewClient().nodes[ROOT].a.key == ROOT_KEY
  {
  }

  lemma StepResolves(hash: bytes -> bytes, w: World, l: Label, strict: bool, count: nat)
    requires WorldOk(w, count) && AllResolve(w, strict) && Harmless(w, l, strict) && Step(hash, w, l).Some?
    ensures AllResolve(Step(hash, w, l).value, strict)
  {
    hide WorldOk, ClientResolves, StoreResolves, Moved, Spread, Enabled, Harmless;
    SpreadResolves(hash, w, l, strict, count);
    MovedResolves(hash, w, l, strict, count);
    var w' := Step(hash, w, l).value;
    forall cid | cid in w'.clients ensures ClientResolves(w'.clients[cid], w'.shared.blobs, strict) {
      if cid != Mover(l) { MoreBlobs(w.clients[cid], w.shared.blobs, w'.shared.blobs, strict); }
    }
  }

  lemma EmptyResolves(strict: bool)
    ensures AllResolve(NOTHING, strict)
  {
  }

  lemma TraceIsOk(hash: bytes -> bytes, run: seq<Label>, trace: seq<World>, i: nat)
    requires IsTrace(hash, run, trace) && |run| < MAX_UINT64 as int && i <= |run|
    ensures WorldOk(trace[i], i)
  {
    hide Step, WorldOk, Exec;
    TraceIsExec(hash, run[..i], trace[..i + 1]);
    ReachableOk(hash, run[..i]);
  }

  lemma {:induction false} TraceResolves(hash: bytes -> bytes, run: seq<Label>, trace: seq<World>, strict: bool, n: nat)
    requires IsTrace(hash, run, trace) && |run| < MAX_UINT64 as int && n <= |run|
    requires forall i :: 0 <= i < n ==> Harmless(trace[i], run[i], strict)
    ensures AllResolve(trace[n], strict)
  {
    hide Step, AllResolve, Harmless, WorldOk;
    if n == 0 {
      EmptyResolves(strict);
    } else {
      TraceResolves(hash, run, trace, strict, n - 1);
      TraceIsOk(hash, run, trace, n - 1);
      assert Step(hash, trace[n - 1], run[n - 1]) == Some(trace[n]);
      StepResolves(hash, trace[n - 1], run[n - 1], strict, n - 1);
    }
  }

  // ----- The theorems -----

  /** With a blob store that may lose content only on its way from a Flush, and a metadata store that may
      fail at any put, every content key in a stored record leads to a blob after every run, roll-backs
      included. */
  lemma ContentKeysResolve(hash: bytes -> bytes, run: seq<Label>, trace: seq<World>, key: bytes)
    requires IsTrace(hash, run, trace) && |run| < MAX_UINT64 as int && key in trace[|run|].shared.store
    requires forall i :: 0 <= i < |run| ==> KeepsBlobs(trace[i], run[i])
    ensures Resolves(trace[|run|].shared.store[key].value.contentKey, trace[|run|].shared.blobs)
  {
    hide Step, KeepsBlobs, ClientResolves, Resolves;
    TraceResolves(hash, run, trace, true, |run|);
  }

  /** Every stored content key leads to a blob, and so does that of every node that has no content to
      replace it with. */
  ghost predicate KeysAreSafe(w: World) {
    AllResolve(w, false)
  }

  /** Whatever gets lost: the content keys are safe all along a run if and only if each Flush that is taken
      back after its content half was done restores a key that leads to a blob. */
  lemma KeysStaySafe(hash: bytes -> bytes, run: seq<Label>, trace: seq<World>)
    requires IsTrace(hash, run, trace) && |run| < MAX_UINT64 as int
    ensures (forall i :: 0 <= i <= |run| ==> KeysAreSafe(trace[i])) <==> (forall i :: 0 <= i < |run| ==> RestoresWell(trace[i], run[i]))
  {
    hide Step, RestoresWell, AllResolve, WorldOk;
    if forall i :: 0 <= i < |run| ==> RestoresWell(trace[i], run[i]) {
      forall i | 0 <= i <= |run| ensures KeysAreSafe(trace[i]) { TraceResolves(hash, run, trace, false, i); }
    }
    if forall i :: 0 <= i <= |run| ==> KeysAreSafe(trace[i]) {
      forall i | 0 <= i < |run| ensures RestoresWell(trace[i], run[i]) {
        TraceIsOk(hash, run, trace, i);
        assert Step(hash, trace[i], run[i]) == Some(trace[i + 1]);
        assert KeysAreSafe(trace[i + 1]);
        SafeAfterwards(hash, trace[i], run[i], i);
      }
    }
  }

  lemma SafeAfterwards(hash: bytes -> bytes, w: World, l: Label, count: nat)
    requires WorldOk(w, count) && Step(hash, w, l).Some? && KeysAreSafe(Step(hash, w, l).value)
    ensures RestoresWell(w, l)
  {
    hide WorldOk, LinksOf, Resolves, StoreResolves, Landed;
    if l.SyncMeta? && RollsBack(w.clients[l.cid], w.shared.store, l.p, l.fault) {
      var c, p := w.clients[l.cid], l.p;
      SyncFacts(hash, w, l.cid, p, true, count);
      var record := RecordOf(c.nodes[p].a, LinksOf(c.nodes, c.nodes[p].children));
      var (a, _, _) := SyncMetadata(c.nodes[p].a, record, w.shared.store, l.fault);
      var w' := Step(hash, w, l).value;
      LandedBlobs(w.clients.Keys, w.shared, l.cid, p, c.nodes[p], record, l.fault);
      assert w'.clients[l.cid] == Abort(WithAttrs(c, p, a), p);
      TakenBack(c, p, a, w.shared.blobs);
    }
  }

  lemma TakenBack(c: Client, p: NodeId, a: Attrs, blobs: map<bytes, bytes>)
    requires p in c.threads && p in c.nodes && c.threads[p].undo.Unflush? && !a.saveContent
    requires ClientResolves(Abort(WithAttrs(c, p, a), p), blobs, false)
    ensures Resolves(c.threads[p].undo.contentKey, blobs)
  {
    assert Abort(WithAttrs(c, p, a), p).nodes[p].a == Unflushed(a, c.threads[p].undo.contentKey);
  }
}
