/** The record store of the protocol stands for the byte store of the nodes: a sync of a node and the
    corresponding step of the protocol do the same, and what is loaded is the record that was saved. */
module Representation {
  import opened Types
  import opened NodeCodec
  import opened Storage
  import opened NodeSpec

  /** Under the same keys and versions, each value is a serialized form of the record. */
  ghost predicate Represents(meta: Versioned, store: map<bytes, Entry<Record>>) {
    && meta.Keys == store.Keys
    && forall k :: k in store ==> meta[k].version == store[k].version && IsImage(meta[k].value, store[k].value)
  }

  lemma PutsAgree(meta: Versioned, store: map<bytes, Entry<Record>>, version: uint64, k: bytes, image: bytes, r: Record, fault: Fault)
    requires Represents(meta, store) && IsImage(image, r)
    ensures TryPut(meta, version, k, image, fault).0 == TryPut(store, version, k, r, fault).0
    ensures Represents(TryPut(meta, version, k, image, fault).1, TryPut(store, version, k, r, fault).1)
  {
    hide IsImage;
    assert k in meta <==> k in store;
  }

  /** sync on the byte store is sync on the record store: the same fields, the same outcome, and stores
      that still stand for each other, whatever the faults. */
  lemma SyncsAgree(a: Attrs, links: map<bytes, Key>, hash: bytes -> bytes, e: Env, a2: Attrs, e2: Env, errno: Errno,
      store: map<bytes, Entry<Record>>)
    requires Syncs(a, links, hash, e, a2, e2, errno) && Represents(e.meta, store)
    ensures var (b, blobs, ok) := SyncContent(a, hash, e.blobs, Head(e.blobFaults));
      var (c, store2, ok2) := SyncMetadata(b, RecordOf(b, links), store, Head(e.metaFaults));
      && e2.blobs == blobs
      && if ok then a2 == c && Represents(e2.meta, store2) && (errno == OK <==> ok2)
         else a2 == b && e2.meta == e.meta && errno == EIO
  {
    hide IsImage, SyncContent, TryPut, Represents;
    var (b, blobs, ok) := SyncContent(a, hash, e.blobs, Head(e.blobFaults));
    if ok {
      var e1 := e.(blobs := blobs, blobFaults := if a.saveContent then Tail(e.blobFaults) else e.blobFaults);
      var image :| IsImage(image, RecordOf(b, links)) && Saves(b, image, e1, a2, e2, errno);
      PutsAgree(e.meta, store, Next(b.version), b.key, image, RecordOf(b, links), Head(e.metaFaults));
    }
  }

  /** A load finds exactly the record of the protocol, if and only if it fits the format. */
  lemma LoadsAgree(meta: Versioned, store: map<bytes, Entry<Record>>, k: bytes)
    requires Represents(meta, store) && k in store
    ensures k in meta && meta[k].version == store[k].version
    ensures Restore(meta[k].value) == Fine(store[k].value)
      <==> NodeCodec.Fits(store[k].value) && (store[k].value.children != map[] ==> IsDirectory(store[k].value.mode))
  {
    hide IsImage, Restore;
    NodeRoundTrip(store[k].value, meta[k].value);
  }
}
