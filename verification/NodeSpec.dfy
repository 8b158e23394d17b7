/** What the operations of a node do to the node and to the stores, on values. */
module NodeSpec {
  import opened Types
  import opened NodeCodec
  import opened Storage

  const MODE_NOT_LOADED: uint32 := 0xffff_ffff
  const S_IFREG: uint32 := 0x8000
  const S_IFLNK: uint32 := 0xa000

  datatype Errno = OK | EIO | ENOENT | EEXIST | ENODATA | ENOTEMPTY

  /** What becomes of one call to a remote store: it works, it is lost on the way, or it is carried
      out but its reply is lost. */
  datatype Fault = Works | Lost | NoReply

  /** The fields of a node, but for its children. */
  datatype Attrs = Attrs(
    key: Key,
    version: uint64,
    user: uint32,
    group: uint32,
    mode: uint32,
    nanos: int64,
    xattrs: map<bytes, bytes>,
    contentKey: bytes,
    content: bytes,
    saveMetadata: bool,
    reloadMetadata: bool,
    saveContent: bool)

  /** What is persisted of a node whose children have the given keys. */
  function RecordOf(a: Attrs, links: map<bytes, Key>): Record {
    Record(a.user, a.group, a.mode, a.nanos, a.contentKey, a.xattrs, links)
  }

  // ----- sync -----

  /** The first half of sync: the content, if it is dirty. The content key is replaced even when the
      blob could not be stored. */
  function SyncContent(a: Attrs, hash: bytes -> bytes, blobs: map<bytes, bytes>, fault: Fault): (Attrs, map<bytes, bytes>, bool) {
    if !a.saveContent then (a, blobs, true) else
      var k := hash(a.content);
      var stored := if fault == Lost then blobs else PutBlob(hash, blobs, a.content);
      if fault != Works then (a.(contentKey := k), stored, false)
      else (a.(contentKey := k, saveContent := false, saveMetadata := a.saveMetadata || a.contentKey != k), stored, true)
  }

  /** A put that goes through a connection that may fail. */
  datatype PutResult = Done | Stale | Failed

  function TryPut<V>(store: map<bytes, Entry<V>>, version: uint64, k: bytes, v: V, fault: Fault): (PutResult, map<bytes, Entry<V>>) {
    if fault == Lost then (Failed, store) else
      var r := PutVersion(store, version, k, v);
      (if fault == NoReply then Failed else if r == None then Stale else Done, if r == None then store else r.value)
  }

  /** The second half of sync: the metadata, if they are dirty; v is their serialized form. */
  function SyncMetadata<V>(a: Attrs, v: V, store: map<bytes, Entry<V>>, fault: Fault): (Attrs, map<bytes, Entry<V>>, bool) {
    if !a.saveMetadata then (a, store, true) else
      var (r, t) := TryPut(store, Next(a.version), a.key, v, fault);
      match r
      case Done => (a.(version := Next(a.version), saveMetadata := false), t, true)
      case Stale => (a.(reloadMetadata := true), t, false)
      case Failed => (a, t, false)
  }

  // ----- A whole sync, between the stores that a client talks to -----

  /** The two stores, and what will become of the next calls to each of them. */
  datatype Env = Env(blobs: map<bytes, bytes>, meta: Versioned, blobFaults: seq<Fault>, metaFaults: seq<Fault>)

  function Head(faults: seq<Fault>): Fault {
    if faults == [] then Works else faults[0]
  }

  function Tail(faults: seq<Fault>): seq<Fault> {
    if faults == [] then [] else faults[1..]
  }

  /** sync of a node with fields a and the given links, from e to e2: the content if it is dirty, and
      only if that worked the metadata if they are dirty by then. */
  ghost predicate Syncs(a: Attrs, links: map<bytes, Key>, hash: bytes -> bytes, e: Env, a2: Attrs, e2: Env, errno: Errno) {
    var (b, blobs, ok) := SyncContent(a, hash, e.blobs, Head(e.blobFaults));
    var e1 := e.(blobs := blobs, blobFaults := if a.saveContent then Tail(e.blobFaults) else e.blobFaults);
    if !ok then a2 == b && e2 == e1 && errno == EIO else
      exists image :: IsImage(image, RecordOf(b, links)) && Saves(b, image, e1, a2, e2, errno)
  }

  predicate Saves(b: Attrs, image: bytes, e1: Env, a2: Attrs, e2: Env, errno: Errno) {
    var (c, meta, ok) := SyncMetadata(b, image, e1.meta, Head(e1.metaFaults));
    && a2 == c && errno == (if ok then OK else EIO)
    && e2 == e1.(meta := meta, metaFaults := if b.saveMetadata then Tail(e1.metaFaults) else e1.metaFaults)
  }

  /** The child is synced between d and e; if that works, its directory is marked and synced between e
      and f; if it does not, the directory stays as it is. */
  ghost predicate SyncedInOrder(c: Attrs, cLinks: map<bytes, Key>, c2: Attrs, a: Attrs, links: map<bytes, Key>, a2: Attrs,
      hash: bytes -> bytes, d: Env, e: Env, f: Env, errno: Errno)
  {
    || (Syncs(c, cLinks, hash, d, c2, e, EIO) && a2 == a && f == e && errno == EIO)
    || (Syncs(c, cLinks, hash, d, c2, e, OK) && Syncs(a.(saveMetadata := true), links, hash, e, a2, f, errno) && errno in {OK, EIO})
  }

  lemma SyncContentKeeps(a: Attrs, hash: bytes -> bytes, blobs: map<bytes, bytes>, fault: Fault)
    ensures var (b, more, ok) := SyncContent(a, hash, blobs, fault);
      && b == a.(contentKey := b.contentKey, saveMetadata := b.saveMetadata, saveContent := b.saveContent)
      && (ok ==> !b.saveContent && (b.saveMetadata <==> a.saveMetadata || b.contentKey != a.contentKey))
      && (ok && a.saveContent ==> b.contentKey == hash(a.content) && b.contentKey in more)
  {
  }

  lemma SavesKeeps(b: Attrs, image: bytes, e1: Env, a2: Attrs, e2: Env, errno: Errno)
    requires Saves(b, image, e1, a2, e2, errno)
    ensures a2 == b.(version := a2.version, saveMetadata := a2.saveMetadata, reloadMetadata := a2.reloadMetadata)
    ensures errno in {OK, EIO} && e2.blobs == e1.blobs
    ensures a2.version == if errno == OK && b.saveMetadata then Next(b.version) else b.version
    ensures errno == OK ==> !a2.saveMetadata
  {
  }

  /** Whatever happens to its calls, a failed sync leaves the version, the links and the attributes of
      the node alone, and so does a successful one, but for a version that is one higher if there was
      something to save. */
  lemma SyncKeeps(a: Attrs, links: map<bytes, Key>, hash: bytes -> bytes, e: Env, a2: Attrs, e2: Env, errno: Errno)
    requires Syncs(a, links, hash, e, a2, e2, errno)
    ensures a2 == a.(version := a2.version, contentKey := a2.contentKey, saveMetadata := a2.saveMetadata,
      reloadMetadata := a2.reloadMetadata, saveContent := a2.saveContent)
    ensures errno in {OK, EIO}
    ensures a2.version == if errno == OK && (a.saveMetadata || a2.contentKey != a.contentKey) then Next(a.version) else a.version
    ensures errno == OK ==> !a2.saveContent && !a2.saveMetadata
    ensures errno == OK && a.saveContent ==> a2.contentKey == hash(a.content) && a2.contentKey in e2.blobs
  {
    hide SyncContent, Saves, IsImage;
    SyncContentKeeps(a, hash, e.blobs, Head(e.blobFaults));
    var (b, blobs, ok) := SyncContent(a, hash, e.blobs, Head(e.blobFaults));
    if ok {
      var e1 := e.(blobs := blobs, blobFaults := if a.saveContent then Tail(e.blobFaults) else e.blobFaults);
      var image :| IsImage(image, RecordOf(b, links)) && Saves(b, image, e1, a2, e2, errno);
      SavesKeeps(b, image, e1, a2, e2, errno);
    }
  }

  /** A sync of a dirty node that works leaves the node's record in the store. */
  lemma SavedIsThere(b: Attrs, links: map<bytes, Key>, hash: bytes -> bytes, e3: Env, a3: Attrs, e4: Env)
    requires Syncs(b, links, hash, e3, a3, e4, OK) && b.saveMetadata
    ensures a3 == b.(version := Next(b.version), contentKey := a3.contentKey, saveMetadata := false, saveContent := false)
    ensures a3.contentKey == if b.saveContent then hash(b.content) else b.contentKey
    ensures b.key in e4.meta && e4.meta[b.key].version == a3.version && IsImage(e4.meta[b.key].value, RecordOf(a3, links))
  {
    hide IsImage;
    var (c, blobs, ok) := SyncContent(b, hash, e3.blobs, Head(e3.blobFaults));
    if ok {
      var e1 := e3.(blobs := blobs, blobFaults := if b.saveContent then Tail(e3.blobFaults) else e3.blobFaults);
      var image :| IsImage(image, RecordOf(c, links)) && Saves(c, image, e1, a3, e4, OK);
      assert RecordOf(a3, links) == RecordOf(c, links);
    }
  }

  // ----- The parts of the operations that change fields -----

  /** The request of a Setattr; resized and now are the content at the new size and the clock. */
  datatype Change = Change(mtime: Option<int64>, uid: Option<uint32>, gid: Option<uint32>, mode: Option<uint32>, size: bool)

  function Or<T>(o: Option<T>, t: T): T {
    match o case None => t case Some(v) => v
  }

  /** Only the low 12 bits of the mode can be changed. */
  function Chmod(old_: uint32, mode: uint32): (r: uint32)
    ensures r % 0x1000 == mode % 0x1000 && r / 0x1000 == old_ / 0x1000
  {
    old_ / 0x1000 * 0x1000 + mode % 0x1000
  }

  /** mode | bit */
  function WithBit(mode: uint32, bit: uint32): (r: uint32)
    requires bit in {S_IFREG, S_IFDIR}
  {
    if mode / bit % 2 == 1 then mode else
      assert mode < 0x1_0000_0000 - bit;
      mode + bit
  }

  /** r is mode with bit 15, that of a regular file, set: every bit below and above is as before. */
  predicate IsRegular(mode: uint32, r: uint32) {
    r / 0x8000 % 2 == 1 && r % 0x8000 == mode % 0x8000 && r / 0x1_0000 == mode / 0x1_0000
  }

  /** The same with bit 14, that of a directory. */
  predicate IsWithDirectoryBit(mode: uint32, r: uint32) {
    r / 0x4000 % 2 == 1 && r % 0x4000 == mode % 0x4000 && r / 0x8000 == mode / 0x8000
  }

  /** For every mode exactly the bit is set, and so what is made as a directory is one. */
  lemma WithBitIsExact(mode: uint32)
    ensures IsRegular(mode, WithBit(mode, S_IFREG))
    ensures IsWithDirectoryBit(mode, WithBit(mode, S_IFDIR)) && IsDirectory(WithBit(mode, S_IFDIR))
  {
    assert WithBit(mode, S_IFREG) == if mode / 0x8000 % 2 == 1 then mode else mode + 0x8000;
    assert WithBit(mode, S_IFDIR) == if mode / 0x4000 % 2 == 1 then mode else mode + 0x4000;
    hide WithBit;
    if mode / 0x8000 % 2 == 0 { RegularBitAdded(mode); }
    if mode / 0x4000 % 2 == 0 { DirectoryBitAdded(mode); }
  }

  lemma RegularBitAdded(mode: nat)
    requires mode / 0x8000 % 2 == 0
    ensures var r := mode + 0x8000; r / 0x8000 % 2 == 1 && r % 0x8000 == mode % 0x8000 && r / 0x1_0000 == mode / 0x1_0000
  {
  }

  lemma DirectoryBitAdded(mode: nat)
    requires mode / 0x4000 % 2 == 0
    ensures var r := mode + 0x4000; r / 0x4000 % 2 == 1 && r % 0x4000 == mode % 0x4000 && r / 0x8000 == mode / 0x8000
  {
  }

  function Changed(a: Attrs, c: Change, resized: bytes, now: int64): Attrs {
    a.(nanos := if c.size then now else Or(c.mtime, a.nanos),
       user := Or(c.uid, a.user),
       group := Or(c.gid, a.group),
       mode := if c.mode.Some? then Chmod(a.mode, c.mode.value) else a.mode,
       content := if c.size then resized else a.content,
       saveContent := a.saveContent || c.size,
       saveMetadata := true)
  }

  /** The rollback of a failed Setattr; was are the fields before it. */
  function Unchanged(a: Attrs, c: Change, was: Attrs): Attrs {
    a.(nanos := if c.mtime.Some? then was.nanos else a.nanos,
       user := if c.uid.Some? then was.user else a.user,
       group := if c.gid.Some? then was.group else a.group,
       mode := if c.mode.Some? then was.mode else a.mode,
       content := if c.size then was.content else a.content)
  }

  /** The rollback of a failed Flush. */
  function Unflushed(a: Attrs, contentKey: bytes): Attrs {
    if a.contentKey == contentKey then a else a.(contentKey := contentKey, content := [])
  }

  function Unset(xattrs: map<bytes, bytes>, attr: bytes, was: Option<bytes>): map<bytes, bytes> {
    if was.Some? then xattrs[attr := was.value] else xattrs - {attr}
  }

  /** Create, Mkdir and Symlink drop the name when they fail, which restores the directory if and only
      if the name was new. */
  lemma DropIsExact<V>(children: map<bytes, V>, name: bytes, child: V)
    ensures children[name := child] - {name} == children <==> name !in children
  {
    if name in children {
      assert name !in children[name := child] - {name};
    } else {
      assert children[name := child] - {name} == children;
    }
  }

  // ----- Loading -----

  /** The fields after LoadMetadata: a record without attributes leaves those of the node in place. */
  function Loaded(a: Attrs, key: Key, version: uint64, r: Record): Attrs {
    a.(key := key, version := version, user := r.user, group := r.group, mode := r.mode, nanos := r.nanos,
       contentKey := r.contentKey, xattrs := if r.xattrs == map[] then a.xattrs else r.xattrs)
  }

  /** The fields of a node as ExistingNode makes it. */
  function Fresh(key: Key): Attrs {
    Attrs(key, 0, 0, 0, MODE_NOT_LOADED, 0, map[], [], [], false, false, false)
  }

  /** The fields of a node as allocateNode and createLockedChild make it. */
  function Created(key: Key, mode: uint32, now: int64): Attrs {
    Attrs(key, 0, 0, 0, mode, now, map[], [], [], false, false, false)
  }

  /** The fields after a reload that found version and r. */
  function Reloaded(a: Attrs, version: uint64, r: Record): Attrs {
    a.(version := version, user := r.user, group := r.group, mode := r.mode, nanos := r.nanos, xattrs := r.xattrs,
       contentKey := r.contentKey, content := if a.contentKey == r.contentKey then a.content else [],
       saveMetadata := false, reloadMetadata := false, saveContent := false)
  }

  /** The content is not loaded, or it is what the content key stands for. */
  predicate IsCached(a: Attrs, hash: bytes -> bytes) {
    a.content == [] || hash(a.content) == a.contentKey
  }

  /** A reload keeps the content if and only if its key is still the same, and gives it up otherwise, so
      that the cache stays true. */
  lemma ReloadKeepsCache(a: Attrs, version: uint64, r: Record, hash: bytes -> bytes)
    ensures var b := Reloaded(a, version, r);
      && b.contentKey == r.contentKey && b.content in {a.content, []}
      && (b.content == a.content <==> r.contentKey == a.contentKey || a.content == [])
      && (IsCached(a, hash) ==> IsCached(b, hash))
  {
  }
}
