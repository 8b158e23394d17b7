/** What an operation that works leaves in the stores, as another client reads it there. */
module Outcomes {
  import opened Types
  import opened NodeCodec
  import opened Storage
  import opened NodeSpec
  import opened Representation

  /** What is stored of the node has lengths that the format can hold, and a directory's mode if it has
      children. */
  predicate CanBeStored(mode: uint32, contentKey: bytes, xattrs: map<bytes, bytes>, links: map<bytes, Key>) {
    && |contentKey| <= MAX_UINT16 && EntriesFit(xattrs) && |xattrs| <= MAX_UINT16 && EntriesFit(links)
    && (links != map[] ==> IsDirectory(mode))
  }

  /** A new object for the key would be filled with exactly these fields, children and version. */
  ghost predicate Reads(meta: Versioned, key: Key, version: uint64, user: uint32, group: uint32, mode: uint32, nanos: int64,
      contentKey: bytes, xattrs: map<bytes, bytes>, links: map<bytes, Key>)
  {
    && key in meta && Restore(meta[key].value).Fine?
    && var r := Restore(meta[key].value).value;
       var a := Loaded(Fresh(key), key, meta[key].version, r);
       && a.version == version && a.user == user && a.group == group && a.mode == mode && a.nanos == nanos
       && a.contentKey == contentKey && a.xattrs == xattrs && r.children == links
       && a.key == key && a.content == [] && !a.saveMetadata && !a.saveContent && !a.reloadMetadata
  }

  /** What a sync of a dirty node saves is what LoadMetadata then fills a new object with: every field,
      the time included, but for the content, which is in the blob store. */
  lemma SavedIsLoaded(a: Attrs, links: map<bytes, Key>, hash: bytes -> bytes, e: Env, a2: Attrs, e2: Env)
    requires Syncs(a, links, hash, e, a2, e2, OK) && a.saveMetadata
    requires CanBeStored(a.mode, a2.contentKey, a.xattrs, links)
    ensures Reads(e2.meta, a.key, a2.version, a.user, a.group, a.mode, a.nanos, a2.contentKey, a.xattrs, links)
    ensures a2.version == Next(a.version)
    ensures a2.contentKey == (if a.saveContent then hash(a.content) else a.contentKey)
    ensures a.saveContent ==> a2.contentKey in e2.blobs
  {
    hide IsImage, Restore;
    SyncKeeps(a, links, hash, e, a2, e2, OK);
    SavedIsThere(a, links, hash, e, a2, e2);
    NodeRoundTrip(RecordOf(a2, links), e2.meta[a.key].value);
  }

  /** Setattr: what was asked for is what is stored. The user, the group and the time are the requested ones,
      or those of before, the time being the clock's if the size changes; of the mode only the low twelve
      bits can change; the content, if there was any to be stored or the size changes, is in the blob store
      under the stored key; and nothing else changes. */
  lemma SetattrIsStored(a: Attrs, change: Change, resized: bytes, now: int64, links: map<bytes, Key>, hash: bytes -> bytes,
      e: Env, a2: Attrs, e2: Env)
    requires Syncs(Changed(a, change, resized, now), links, hash, e, a2, e2, OK)
    requires CanBeStored(a.mode, a2.contentKey, a.xattrs, links)
    ensures Reads(e2.meta, a.key, Next(a.version),
      match change.uid case Some(u) => u case None => a.user,
      match change.gid case Some(g) => g case None => a.group,
      a2.mode,
      if change.size then now else match change.mtime case Some(t) => t case None => a.nanos,
      a2.contentKey, a.xattrs, links)
    ensures a2.mode / 0x1000 == a.mode / 0x1000
    ensures a2.mode % 0x1000 == match change.mode case Some(m) => m % 0x1000 case None => a.mode % 0x1000
    ensures a2.content == if change.size then resized else a.content
    ensures a2.contentKey == if a.saveContent || change.size then hash(a2.content) else a.contentKey
    ensures a.saveContent || change.size ==> a2.contentKey in e2.blobs
  {
    hide Syncs, Restore, Reads;
    var c := Changed(a, change, resized, now);
    SyncKeeps(c, links, hash, e, a2, e2, OK);
    SameDirectory(a.mode, c.mode);
    SavedIsLoaded(c, links, hash, e, a2, e2);
  }

  /** The bit that makes a directory is not among the low twelve. */
  lemma SameDirectory(m: uint32, r: uint32)
    requires r / 0x1000 == m / 0x1000
    ensures IsDirectory(r) <==> IsDirectory(m)
  {
    assert r / 0x4000 == r / 0x1000 / 4 && m / 0x4000 == m / 0x1000 / 4;
  }

  /** A sync leaves the other keys of both stores alone. */
  lemma SyncsElsewhere(a: Attrs, links: map<bytes, Key>, hash: bytes -> bytes, e: Env, a2: Attrs, e2: Env, errno: Errno, k: bytes)
    requires Syncs(a, links, hash, e, a2, e2, errno)
    ensures k != a.key ==> (k in e2.meta <==> k in e.meta) && (k in e.meta ==> e2.meta[k] == e.meta[k])
    ensures k in e.blobs ==> k in e2.blobs
  {
    hide IsImage;
    var (b, blobs, ok) := SyncContent(a, hash, e.blobs, Head(e.blobFaults));
    if ok {
      var e1 := e.(blobs := blobs, blobFaults := if a.saveContent then Tail(e.blobFaults) else e.blobFaults);
      var image :| IsImage(image, RecordOf(b, links)) && Saves(b, image, e1, a2, e2, errno);
    }
  }

  /** A directory with fields a and its new child c, both of them saved: the directory has the new names and
      otherwise what it had, and the child is there too. */
  lemma BothAreStored(c: Attrs, c2: Attrs, a: Attrs, links: map<bytes, Key>, a2: Attrs, hash: bytes -> bytes, d: Env, e: Env, f: Env)
    requires SyncedInOrder(c, map[], c2, a, links, a2, hash, d, e, f, OK) && c.saveMetadata && c.key != a.key
    requires CanBeStored(c.mode, c2.contentKey, c.xattrs, map[]) && CanBeStored(a.mode, a2.contentKey, a.xattrs, links)
    ensures Reads(f.meta, a.key, Next(a.version), a.user, a.group, a.mode, a.nanos, a2.contentKey, a.xattrs, links)
    ensures Reads(f.meta, c.key, Next(c.version), c.user, c.group, c.mode, c.nanos, c2.contentKey, c.xattrs, map[])
    ensures c2.contentKey == if c.saveContent then hash(c.content) else c.contentKey
    ensures c.saveContent ==> c2.contentKey in f.blobs
  {
    hide Syncs, Restore;
    SavedIsLoaded(c, map[], hash, d, c2, e);
    SavedIsLoaded(a.(saveMetadata := true), links, hash, e, a2, f);
    SyncsElsewhere(a.(saveMetadata := true), links, hash, e, a2, f, OK, c.key);
    SyncsElsewhere(a.(saveMetadata := true), links, hash, e, a2, f, OK, c2.contentKey);
  }

  /** A Create that works: under the new key there is a file of nobody, made now, that is empty; its mode is
      the requested one with the bit of a regular file. */
  lemma FileIsStored(key: Key, mode: uint32, now: int64, c2: Attrs, a: Attrs, links: map<bytes, Key>, a2: Attrs, hash: bytes -> bytes,
      d: Env, e: Env, f: Env) returns (full: uint32)
    requires SyncedInOrder(Created(key, WithBit(mode, S_IFREG), now).(saveMetadata := true), map[], c2, a, links, a2, hash, d, e, f, OK)
    requires key != a.key && CanBeStored(a.mode, a2.contentKey, a.xattrs, links)
    ensures IsRegular(mode, full)
    ensures Reads(f.meta, key, 1, 0, 0, full, now, [], map[], map[])
    ensures Reads(f.meta, a.key, Next(a.version), a.user, a.group, a.mode, a.nanos, a2.contentKey, a.xattrs, links)
  {
    hide SyncedInOrder, Reads, WithBit, IsRegular, IsWithDirectoryBit, IsDirectory;
    WithBitIsExact(mode);
    full := WithBit(mode, S_IFREG);
    var c := Created(key, full, now).(saveMetadata := true);
    ChildContentKey(c, a, links, hash, d, c2, e, a2, f);
    BothAreStored(c, c2, a, links, a2, hash, d, e, f);
  }

  /** A Mkdir that works: the same with the bit of a directory, so that children can be loaded into it. */
  lemma DirectoryIsStored(key: Key, mode: uint32, now: int64, c2: Attrs, a: Attrs, links: map<bytes, Key>, a2: Attrs, hash: bytes -> bytes,
      d: Env, e: Env, f: Env) returns (full: uint32)
    requires SyncedInOrder(Created(key, WithBit(mode, S_IFDIR), now).(saveMetadata := true), map[], c2, a, links, a2, hash, d, e, f, OK)
    requires key != a.key && CanBeStored(a.mode, a2.contentKey, a.xattrs, links)
    ensures IsDirectory(full) && IsWithDirectoryBit(mode, full)
    ensures Reads(f.meta, key, 1, 0, 0, full, now, [], map[], map[])
    ensures Reads(f.meta, a.key, Next(a.version), a.user, a.group, a.mode, a.nanos, a2.contentKey, a.xattrs, links)
  {
    hide SyncedInOrder, Reads, WithBit, IsRegular, IsWithDirectoryBit, IsDirectory;
    WithBitIsExact(mode);
    full := WithBit(mode, S_IFDIR);
    var c := Created(key, full, now).(saveMetadata := true);
    ChildContentKey(c, a, links, hash, d, c2, e, a2, f);
    BothAreStored(c, c2, a, links, a2, hash, d, e, f);
  }

  /** A Symlink that works: the mode is that of a link, and its content key leads to the stored target. */
  lemma LinkIsStored(key: Key, target: bytes, now: int64, c2: Attrs, a: Attrs, links: map<bytes, Key>, a2: Attrs, hash: bytes -> bytes,
      d: Env, e: Env, f: Env)
    requires SyncedInOrder(Created(key, S_IFLNK, now).(saveMetadata := true, saveContent := true, content := target), map[], c2,
      a, links, a2, hash, d, e, f, OK)
    requires key != a.key && CanBeStored(a.mode, a2.contentKey, a.xattrs, links) && |hash(target)| <= MAX_UINT16
    ensures Reads(f.meta, key, 1, 0, 0, 0xa000, now, hash(target), map[], map[]) && hash(target) in f.blobs
    ensures Reads(f.meta, a.key, Next(a.version), a.user, a.group, a.mode, a.nanos, a2.contentKey, a.xattrs, links)
  {
    hide Reads, SyncedInOrder;
    var c := Created(key, S_IFLNK, now).(saveMetadata := true, saveContent := true, content := target);
    ChildContentKey(c, a, links, hash, d, c2, e, a2, f);
    BothAreStored(c, c2, a, links, a2, hash, d, e, f);
  }

  /** The content key of the child that was saved. */
  lemma ChildContentKey(c: Attrs, a: Attrs, links: map<bytes, Key>, hash: bytes -> bytes, d: Env, c2: Attrs, e: Env, a2: Attrs, f: Env)
    requires SyncedInOrder(c, map[], c2, a, links, a2, hash, d, e, f, OK) && c.saveMetadata
    ensures c2.contentKey == if c.saveContent then hash(c.content) else c.contentKey
  {
    hide Syncs;
    SavedIsThere(c, map[], hash, d, c2, e);
  }
}
