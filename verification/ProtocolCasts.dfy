/** The broadcasts on their way: each is of an accepted put of another client, and there is only one. */
module ProtocolCasts {
  import opened Types
  import opened NodeCodec
  import opened Storage
  import opened NodeSpec
  import opened Protocol
  import opened ProtocolInv
  import opened ProtocolSyncs
  import opened ProtocolNews
  import opened ProtocolRuns
  import opened ProtocolTheorems

  /** A broadcast that may be pending: of a put that was accepted from another client. */
  predicate IsGenuine(cast: Cast, log: map<(bytes, uint64), Put>) {
    (cast.key, cast.version) in log && log[(cast.key, cast.version)].client != cast.to
  }

  ghost predicate CastsOk(w: World) {
    forall cast :: cast in w.shared.pending ==>
      w.shared.pending[cast] == 1 && cast.to in w.clients && IsGenuine(cast, w.shared.log)
  }

  /** The put of this version that lands is announced to this client. */
  predicate IsAnnounced(cast: Cast, clients: set<ClientId>, cid: ClientId, a: Attrs) {
    cast.to in clients && cast.to != cid && cast.key == a.key && cast.version == Next(a.version)
  }

  /** A put changes what is pending if and only if it lands, and then by exactly one broadcast of its version
      for every other client. */
  lemma PutsAreAnnounced(clients: set<ClientId>, sh: Shared, cid: ClientId, m: NodeId, n: Node, record: Record, fault: Fault, cast: Cast)
    ensures Landed(clients, sh, cid, m, n, record, fault).pending[cast] == sh.pending[cast] +
      if Lands(n.a, record, sh.store, fault) && IsAnnounced(cast, clients, cid, n.a) then 1 else 0
  {
    var casts := set d | d in clients && d != cid :: Cast(d, n.a.key, Next(n.a.version));
    assert cast in casts <==> IsAnnounced(cast, clients, cid, n.a);
  }

  lemma StepCasts(hash: bytes -> bytes, w: World, l: Label, count: nat)
    requires WorldOk(w, count) && count < MAX_UINT64 as int && CastsOk(w) && Enabled(w, l)
    ensures CastsOk(Step(hash, w, l).value)
  {
    hide WorldOk, Moved, BlobStep, Landed, IsGenuine, Lands;
    var w' := Step(hash, w, l).value;
    match l
    case SyncMeta(cid, p, fault) =>
      var c := w.clients[cid];
      var m := c.threads[p].todo[0];
      assert m in c.threads[p].todo;
      var record := RecordOf(c.nodes[m].a, LinksOf(c.nodes, c.nodes[m].children));
      forall cast | cast in w'.shared.pending ensures w'.shared.pending[cast] == 1 && cast.to in w'.clients && IsGenuine(cast, w'.shared.log) {
        PutsAreAnnounced(w.clients.Keys, w.shared, cid, m, c.nodes[m], record, fault, cast);
        NewCast(w, cid, m, c.nodes[m], record, fault, cast, count);
      }
    case _ =>
  }

  lemma NewCast(w: World, cid: ClientId, m: NodeId, n: Node, record: Record, fault: Fault, cast: Cast, count: nat)
    requires WorldOk(w, count) && count < MAX_UINT64 as int && CastsOk(w)
    ensures var log := Landed(w.clients.Keys, w.shared, cid, m, n, record, fault).log;
      && (cast in w.shared.pending ==> IsGenuine(cast, log))
      && (Lands(n.a, record, w.shared.store, fault) && IsAnnounced(cast, w.clients.Keys, cid, n.a) ==>
            IsGenuine(cast, log) && cast !in w.shared.pending)
  {
    hide ClientOk, Informed, EntryOk, Coherent;
    if Lands(n.a, record, w.shared.store, fault) {
      NewVersion(w.shared, n.a, record, fault, count);
    }
  }

  /** A version that lands has not been accepted before. */
  lemma NewVersion(sh: Shared, a: Attrs, record: Record, fault: Fault, count: nat)
    requires SharedOk(sh, count) && count < MAX_UINT64 as int && Lands(a, record, sh.store, fault)
    ensures (a.key, Next(a.version)) !in sh.log
  {
  }

  lemma {:induction false} ExecCasts(hash: bytes -> bytes, run: seq<Label>)
    requires |run| < MAX_UINT64 as int
    ensures Exec(hash, run).Some? ==> CastsOk(Exec(hash, run).value)
    decreases |run|
  {
    hide WorldOk, CastsOk, Moved, Spread, Enabled;
    if run == [] {
      NoCasts();
    } else {
      var less := run[..|run| - 1];
      ExecCasts(hash, less);
      ReachableOk(hash, less);
      match Exec(hash, less)
      case None =>
      case Some(w) => if Enabled(w, run[|run| - 1]) { StepCasts(hash, w, run[|run| - 1], |less|); }
    }
  }

  lemma NoCasts()
    ensures CastsOk(NOTHING)
  {
  }

  /** In every reachable world, a pending broadcast is the only one of its version for its client, and that
      version was accepted from another client. */
  lemma BroadcastsAreGenuine(hash: bytes -> bytes, run: seq<Label>, w: World, cast: Cast)
    requires Reaches(hash, run, w) && cast in w.shared.pending
    ensures w.shared.pending[cast] == 1 && cast.to in w.clients
    ensures (cast.key, cast.version) in w.shared.log && w.shared.log[(cast.key, cast.version)].client != cast.to
  {
    hide Reaches, Exec;
    ReachesByExec(hash, run, w);
    ExecCasts(hash, run);
  }
}
