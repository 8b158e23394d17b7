/** The node objects of a client, and the factory that makes them: pkg/node/metadata.go,
    pkg/node/node.go and pkg/node/nodefcatory.go. */
module CryptNodes {
  import opened Types
  import opened Bits
  import opened NodeCodec
  import opened Storage
  import opened NodeSpec
  import opened FileBuffer

  const XATTR_CREATE: uint32 := 1
  const XATTR_REPLACE: uint32 := 2

  lemma PutBack<K, V>(m: map<K, V>, k: K)
    ensures k in m ==> (m - {k})[k := m[k]] == m
    ensures k !in m ==> m - {k} == m
  {
  }

  lemma PutBackAttr(m: map<bytes, bytes>, k: bytes, v: bytes)
    ensures Unset(m[k := v], k, if k in m then Some(m[k]) else None) == m
  {
  }

  /** The child has the new key, and is flagged if that is not the one that it had. */
  ghost predicate IsRekeyed(child: CryptNode, oldKey: Key, oldFlag: bool, key: Key)
    reads child`key, child`shouldReloadMetadata
  {
    child.key == key && child.shouldReloadMetadata == (oldFlag || oldKey != key)
  }

  lemma ReloadedFields(a: Attrs, version: uint64, rec: Record)
    ensures Reloaded(a, version, rec.(children := map[])) == Reloaded(a, version, rec)
  {
  }

  /** Different names lead to different objects. */
  ghost predicate Distinct(children: map<bytes, CryptNode>) {
    forall x, y :: x in children && y in children && children[x] == children[y] ==> x == y
  }

  /** The known map after ExistingNode was called for each of the links that found covers, in some order. */
  ghost predicate Learned(before: map<Key, CryptNode>, after: map<Key, CryptNode>, found: map<bytes, CryptNode>, links: map<bytes, Key>) {
    && (forall k :: k in before ==> k in after && after[k] == before[k])
    && (forall name :: name in found && name in links ==> links[name] in after)
    && (forall k :: k in after && k !in before ==> exists name :: name in found && name in links && links[name] == k && after[k] == found[name])
  }

  lemma NothingLearned(known: map<Key, CryptNode>, links: map<bytes, Key>)
    ensures Learned(known, known, map[], links) && Distinct(map[])
  {
  }

  lemma LearnedKeeps(before: map<Key, CryptNode>, after: map<Key, CryptNode>, found: map<bytes, CryptNode>, links: map<bytes, Key>)
    requires Learned(before, after, found, links)
    ensures forall k :: k in before ==> k in after && after[k] == before[k]
  {
  }

  lemma OneMoreLearned(before: map<Key, CryptNode>, after: map<Key, CryptNode>, more: map<Key, CryptNode>,
      found: map<bytes, CryptNode>, links: map<bytes, Key>, name: bytes, child: CryptNode)
    requires Learned(before, after, found, links) && name in links && name !in found
    requires more == if links[name] in after then after else after[links[name] := child]
    requires Distinct(found) && forall x :: x in found ==> found[x] != child
    ensures Learned(before, more, found[name := child], links) && Distinct(found[name := child])
  {
    var found' := found[name := child];
    forall k | k in more && k !in before
      ensures exists x :: x in found' && x in links && links[x] == k && more[k] == found'[x]
    {
      if k in after {
        var x :| x in found && x in links && links[x] == k && after[k] == found[x];
        assert x in found' && found'[x] == found[x];
      } else {
        assert name in found';
      }
    }
  }

  /** The metadata server as a client sees it; faults says what becomes of the next puts. */
  class MetadataService {
    const store: VersionedWrapper
    var faults: seq<Fault>

    constructor (store: VersionedWrapper, faults: seq<Fault>)
      ensures this.store == store && this.faults == faults
    {
      this.store, this.faults := store, faults;
    }

    method Put(version: uint64, key: bytes, value: bytes) returns (r: PutResult)
      requires store.Valid()
      modifies this, store.delegate
      ensures store.Valid() && faults == Tail(old(faults))
      ensures (r, store.View()) == TryPut(old(store.View()), version, key, value, Head(old(faults)))
    {
      var fault := Head(faults);
      faults := Tail(faults);
      if fault == Lost { return Failed; }
      var stale := store.Put(version, key, value);
      r := if fault == NoReply then Failed else if stale then Stale else Done;
    }
  }

  /** The blob store as a client sees it. */
  class BlobService {
    const store: BlobStoreWrapper
    var faults: seq<Fault>

    constructor (store: BlobStoreWrapper, faults: seq<Fault>)
      ensures this.store == store && this.faults == faults
    {
      this.store, this.faults := store, faults;
    }

    /** The key is computed, and returned, whether or not the value gets stored. */
    method Put(value: bytes) returns (key: bytes, ok: bool)
      modifies this, store.delegate
      ensures faults == Tail(old(faults)) && key == store.hash(value) && ok == (Head(old(faults)) == Works)
      ensures store.delegate.m ==
        if Head(old(faults)) == Lost then old(store.delegate.m) else PutBlob(store.hash, old(store.delegate.m), value)
    {
      var fault := Head(faults);
      faults := Tail(faults);
      if fault == Lost {
        return store.hash(value), false;
      }
      key := store.Put(value);
      ok := fault == Works;
    }
  }

  class Factory {
    const metadata: MetadataService
    const blobs: BlobService
    var known: map<Key, CryptNode>

    constructor (metadata: MetadataService, blobs: BlobService)
      ensures this.metadata == metadata && this.blobs == blobs && known == map[]
    {
      this.metadata, this.blobs, known := metadata, blobs, map[];
    }

    ghost predicate Valid()
      reads metadata.store.delegate
    {
      metadata.store.Valid() && metadata.store.delegate != blobs.store.delegate
    }

    ghost function Services(): set<object> {
      {metadata, metadata.store.delegate, blobs, blobs.store.delegate}
    }

    ghost function Env(): Env
      requires Valid()
      reads metadata, metadata.store.delegate, blobs, blobs.store.delegate
    {
      NodeSpec.Env(blobs.store.delegate.m, metadata.store.View(), blobs.faults, metadata.faults)
    }

    /** A key that is known keeps its object. */
    method AddKnown(node: CryptNode)
      modifies this`known
      ensures known == if node.key in old(known) then old(known) else old(known)[node.key := node]
    {
      if node.key in known { return; }
      known := known[node.key := node];
    }

    method GetKnown(key: Key) returns (node: CryptNode?)
      ensures node == if key in known then known[key] else null
    {
      node := if key in known then known[key] else null;
    }

    /** The random key and the clock are parameters. */
    method AllocateNode(key: Key, now: int64) returns (node: CryptNode)
      modifies this`known
      ensures fresh(node) && fresh(node.buf) && node.factory == this && node.Valid()
      ensures node.View() == Created(key, 0, now) && node.children == map[] && !node.hasChildren
      ensures known == if key in old(known) then old(known) else old(known)[key := node]
    {
      node := new CryptNode(this, key, 0, now);
      AddKnown(node);
    }

    ghost predicate IsUnloaded(node: CryptNode, key: Key)
      reads node, node.buf
    {
      node.Valid() && node.View() == Fresh(key) && node.children == map[] && !node.hasChildren && node.factory == this
    }

    method ExistingNode(key: Key) returns (node: CryptNode)
      modifies this`known
      ensures fresh(node) && fresh(node.buf) && IsUnloaded(node, key)
      ensures known == if key in old(known) then old(known) else old(known)[key := node]
    {
      node := new CryptNode(this, key, MODE_NOT_LOADED, 0);
      AddKnown(node);
    }

    predicate Knows(key: bytes, node: CryptNode)
      reads this`known
    {
      |key| == NODE_KEY_LEN && key in known && known[key] == node
    }

    /** A broadcast about some key: only the node known by it gets flagged, and only if it is older. */
    method InvalidateCache(key: bytes, version: uint64)
      modifies known.Values`shouldReloadMetadata
      ensures forall node :: node in known.Values ==>
        node.shouldReloadMetadata == (old(node.shouldReloadMetadata) || (Knows(key, node) && version > node.version))
    {
      if |key| != NODE_KEY_LEN { return; }
      var node := GetKnown(key);
      if node == null || version <= node.version { return; }
      assert node in known.Values;
      node.shouldReloadMetadata := true;
    }
  }

  class CryptNode {
    const factory: Factory

    var shouldSaveMetadata: bool
    var shouldReloadMetadata: bool
    var shouldSaveContent: bool

    var user: uint32
    var group: uint32
    var mode: uint32
    var nanos: int64

    var key: Key
    var version: uint64
    var xattrs: map<bytes, bytes>

    // The content is a slice: the first size bytes of buf, whose length is the capacity.
    var contentKey: bytes
    var buf: array<byte>
    var size: nat

    // A nil map is an empty one with hasChildren unset.
    var children: map<bytes, CryptNode>
    var hasChildren: bool

    constructor (factory: Factory, key: Key, mode: uint32, now: int64)
      ensures this.factory == factory && fresh(buf) && buf.Length == 0 && Valid()
      ensures View() == Created(key, mode, now) && children == map[] && !hasChildren
    {
      this.factory := factory;
      shouldSaveMetadata, shouldReloadMetadata, shouldSaveContent := false, false, false;
      user, group, this.mode, nanos := 0, 0, mode, now;
      this.key, version, xattrs, contentKey := key, 0, map[], [];
      buf, size := new byte[0], 0;
      children, hasChildren := map[], false;
    }

    ghost predicate Valid()
      reads this`size, this`buf, this`children, this`hasChildren
    {
      Bounded() && forall name :: name in children ==> hasChildren
    }

    ghost predicate Bounded()
      reads this`size, this`buf
    {
      size <= buf.Length
    }

    ghost function View(): Attrs
      requires Bounded()
      reads this`key, this`version, this`user, this`group, this`mode, this`nanos, this`xattrs, this`contentKey
      reads this`shouldSaveMetadata, this`shouldReloadMetadata, this`shouldSaveContent, this`size, this`buf, buf
    {
      Attrs(key, version, user, group, mode, nanos, xattrs, contentKey, buf[..size],
        shouldSaveMetadata, shouldReloadMetadata, shouldSaveContent)
    }

    ghost function Slice(): (s: Slice)
      requires Bounded()
      reads this`size, this`buf, buf
      ensures s.Valid()
    {
      FileBuffer.Slice(buf[..], size)
    }

    /** The names and keys under which the node is stored. */
    ghost function Links(): map<bytes, Key>
      reads this`children, children.Values`key
    {
      map name | name in children :: children[name].key
    }

    // ----- metadata.go -----

    method Serialize() returns (image: bytes)
      requires Valid()
      ensures IsImage(image, RecordOf(View(), Links()))
    {
      var links := map name | name in children :: children[name].key;
      image := NodeCodec.Serialize(Record(user, group, mode, nanos, contentKey, xattrs, links));
    }

    /** The content half of sync. */
    method SaveContent() returns (ok: bool)
      requires Valid() && factory.Valid()
      modifies this`contentKey, this`shouldSaveContent, this`shouldSaveMetadata, factory.blobs, factory.blobs.store.delegate
      ensures Valid() && factory.Valid() && factory.metadata.store.View() == old(factory.metadata.store.View())
      ensures (View(), factory.blobs.store.delegate.m, ok)
        == SyncContent(old(View()), factory.blobs.store.hash, old(factory.blobs.store.delegate.m), Head(old(factory.blobs.faults)))
      ensures factory.blobs.faults == if old(shouldSaveContent) then Tail(old(factory.blobs.faults)) else old(factory.blobs.faults)
    {
      if !shouldSaveContent { return true; }
      var prev := contentKey;
      contentKey, ok := factory.blobs.Put(buf[..size]);
      if !ok { return; }
      shouldSaveContent := false;
      if prev != contentKey { shouldSaveMetadata := true; }
    }

    method SaveMetadata() returns (r: PutResult, ghost image: bytes)
      requires Valid() && factory.Valid()
      modifies this`version, factory.metadata, factory.metadata.store.delegate
      ensures factory.Valid() && IsImage(image, RecordOf(old(View()), old(Links())))
      ensures (r, factory.metadata.store.View())
        == TryPut(old(factory.metadata.store.View()), Next(old(version)), key, image, Head(old(factory.metadata.faults)))
      ensures factory.metadata.faults == Tail(old(factory.metadata.faults))
      ensures version == if r == Done then Next(old(version)) else old(version)
    {
      hide IsImage;
      var value := Serialize();
      image := value;
      r := factory.metadata.Put(Next(version), key, value);
      if r == Done {
        version := Next(version);
      }
    }

    /** The metadata half of sync. */
    method SyncDirty() returns (errno: Errno, ghost image: bytes)
      requires Valid() && factory.Valid()
      modifies this`version, this`shouldSaveMetadata, this`shouldReloadMetadata, factory.metadata, factory.metadata.store.delegate
      ensures Valid() && factory.Valid() && IsImage(image, RecordOf(old(View()), old(Links()))) && errno in {OK, EIO}
      ensures Saves(old(View()), image, old(factory.Env()), View(), factory.Env(), errno)
    {
      hide IsImage, TryPut;
      if !shouldSaveMetadata {
        image := Serialize();
        return OK, image;
      }
      var r;
      r, image := SaveMetadata();
      if r != Done {
        if r == Stale { shouldReloadMetadata := true; }
        return EIO, image;
      }
      shouldSaveMetadata := false;
      errno := OK;
    }

    /** sync: the content goes first, and the metadata only follow if it got through. */
    method Sync() returns (errno: Errno)
      requires Valid() && factory.Valid()
      modifies this`version, this`contentKey, this`shouldSaveContent, this`shouldSaveMetadata, this`shouldReloadMetadata
      modifies factory.Services()
      ensures Valid() && factory.Valid()
      ensures errno in {OK, EIO}
      ensures Syncs(old(View()), old(Links()), factory.blobs.store.hash, old(factory.Env()), View(), factory.Env(), errno)
    {
      hide IsImage, Saves, SyncContent;
      var ok := SaveContent();
      if !ok { return EIO; }
      ghost var image;
      errno, image := SyncDirty();
    }
  
    // ----- node.go: operations on one node -----

    method StoreXattr(attr: bytes, data: bytes)
      requires Valid()
      modifies this`xattrs, this`shouldSaveMetadata
      ensures Valid() && View() == old(View()).(xattrs := old(xattrs)[attr := data], saveMetadata := true)
      ensures xattrs == old(xattrs)[attr := data]
    {
      xattrs := xattrs[attr := data];
      shouldSaveMetadata := true;
    }

    method RestoreXattr(attr: bytes, rbdata: Option<bytes>)
      requires Bounded()
      modifies this`xattrs
      ensures View() == old(View()).(xattrs := Unset(old(xattrs), attr, rbdata))
    {
      xattrs := Unset(xattrs, attr, rbdata);
    }

    /** Setxattr behind its checks. */
    method SaveXattr(attr: bytes, data: bytes) returns (errno: Errno, ghost mid: Attrs)
      requires Valid() && factory.Valid()
      modifies this`xattrs, this`version, this`contentKey, this`shouldSaveContent, this`shouldSaveMetadata, this`shouldReloadMetadata
      modifies factory.Services()
      ensures Valid() && factory.Valid() && errno in {OK, EIO}
      ensures Syncs(old(View()).(xattrs := old(xattrs)[attr := data], saveMetadata := true), old(Links()),
        factory.blobs.store.hash, old(factory.Env()), mid, factory.Env(), errno)
      ensures View() == if errno == OK then mid else mid.(xattrs := old(xattrs))
    {
      hide Syncs, Unset, Links, View, Factory.Valid, Factory.Env;
      var rbdata := if attr in xattrs then Some(xattrs[attr]) else None;
      PutBackAttr(xattrs, attr, data);
      StoreXattr(attr, data);
      errno := Sync();
      mid := View();
      if errno != OK { RestoreXattr(attr, rbdata); }
    }

    /** A failed call leaves the attributes exactly as they were. */
    method Setxattr(attr: bytes, data: bytes, flags: uint32) returns (errno: Errno, ghost mid: Attrs)
      requires Valid() && factory.Valid()
      modifies this`xattrs, this`version, this`contentKey, this`shouldSaveContent, this`shouldSaveMetadata, this`shouldReloadMetadata
      modifies factory.Services()
      ensures Valid() && factory.Valid()
      ensures errno == EEXIST <==> flags == XATTR_CREATE && attr in old(xattrs)
      ensures errno == ENODATA <==> flags == XATTR_REPLACE && attr !in old(xattrs)
      ensures errno in {EEXIST, ENODATA} ==> View() == old(View()) && factory.Env() == old(factory.Env())
      ensures errno !in {EEXIST, ENODATA} ==> (
        && Syncs(old(View()).(xattrs := old(xattrs)[attr := data], saveMetadata := true), old(Links()),
             factory.blobs.store.hash, old(factory.Env()), mid, factory.Env(), errno)
        && View() == if errno == OK then mid else mid.(xattrs := old(xattrs)))
    {
      hide Syncs, Links;
      if flags == XATTR_CREATE && attr in xattrs { return EEXIST, View(); }
      if flags == XATTR_REPLACE && attr !in xattrs { return ENODATA, View(); }
      errno, mid := SaveXattr(attr, data);
    }

    method Detach(name: bytes)
      requires Valid()
      modifies this`children, this`shouldSaveMetadata
      ensures Valid() && children == old(children) - {name}
      ensures View() == old(View()).(saveMetadata := true) && Links() == old(Links()) - {name}
    {
      children := children - {name};
      shouldSaveMetadata := true;
    }

    /** A directory's child goes, and comes back if that cannot be saved. */
    method Remove(name: bytes) returns (errno: Errno)
      requires Valid() && factory.Valid()
      modifies this`children, this`version, this`contentKey, this`shouldSaveContent, this`shouldSaveMetadata, this`shouldReloadMetadata
      modifies factory.Services()
      ensures Valid() && factory.Valid() && errno in {OK, EIO}
      ensures Syncs(old(View()).(saveMetadata := true), old(Links()) - {name}, factory.blobs.store.hash, old(factory.Env()),
        View(), factory.Env(), errno)
      ensures children == if errno == OK then old(children) - {name} else old(children)
    {
      hide Syncs, Links, Factory.Valid, Factory.Env;
      var was := children;
      PutBack(was, name);
      Detach(name);
      errno := Sync();
      if errno != OK && name in was {
        children := children[name := was[name]];
      }
    }

    method Rmdir(name: bytes) returns (errno: Errno)
      requires Valid() && factory.Valid()
      modifies this`children, this`version, this`contentKey, this`shouldSaveContent, this`shouldSaveMetadata, this`shouldReloadMetadata
      modifies factory.Services()
      ensures Valid() && factory.Valid()
      ensures errno == ENOENT <==> name !in old(children)
      ensures errno == ENOTEMPTY <==> name in old(children) && old(children[name].children) != map[]
      ensures errno in {ENOENT, ENOTEMPTY} ==> View() == old(View()) && children == old(children) && factory.Env() == old(factory.Env())
      ensures errno !in {ENOENT, ENOTEMPTY} ==>
        Syncs(old(View()).(saveMetadata := true), old(Links()) - {name}, factory.blobs.store.hash, old(factory.Env()),
          View(), factory.Env(), errno)
      ensures children == if errno == OK then old(children) - {name} else old(children)
    {
      hide Syncs;
      if name !in children { return ENOENT; }
      if children[name].children != map[] { return ENOTEMPTY; }
      errno := Remove(name);
    }

    method Unlink(name: bytes) returns (errno: Errno)
      requires Valid() && factory.Valid()
      modifies this`children, this`version, this`contentKey, this`shouldSaveContent, this`shouldSaveMetadata, this`shouldReloadMetadata
      modifies factory.Services()
      ensures Valid() && factory.Valid()
      ensures Syncs(old(View()).(saveMetadata := true), old(Links()) - {name}, factory.blobs.store.hash, old(factory.Env()),
        View(), factory.Env(), errno)
      ensures children == if errno == OK then old(children) - {name} else old(children)
    {
      errno := Remove(name);
    }

    /** A failed flush goes back to the old content key and gives the content up if the key changed. */
    method Flush() returns (errno: Errno, ghost mid: Attrs)
      requires Valid() && factory.Valid()
      modifies this`buf, this`size, this`version, this`contentKey, this`shouldSaveContent, this`shouldSaveMetadata, this`shouldReloadMetadata
      modifies factory.Services()
      ensures Valid() && factory.Valid()
      ensures Syncs(old(View()), old(Links()), factory.blobs.store.hash, old(factory.Env()), mid, factory.Env(), errno)
      ensures View() == if errno == OK then mid else Unflushed(mid, old(contentKey))
    {
      hide Syncs, Links, Factory.Valid, Factory.Env;
      var prev := contentKey;
      errno := Sync();
      mid := View();
      if errno != OK && prev != contentKey {
        contentKey := prev;
        buf, size := new byte[0], 0;
      }
    }

    // ----- node.go: content -----

    method Resize(size: nat)
      requires Valid()
      modifies this`buf, this`size
      ensures Valid() && Slice() == FileBuffer.Resize(old(Slice()), size)
      ensures buf == old(buf) || fresh(buf)
    {
      if size > buf.Length {
        var larger := new byte[size](_ => 0);
        var n := this.size;
        forall i | 0 <= i < n { larger[i] := buf[i]; }
        assert larger[..] == buf[..n] + Zeros(size - n);
        buf := larger;
      }
      this.size := size;
    }

    method Write(data: bytes, off: nat, now: int64) returns (written: uint32)
      requires Valid()
      modifies this`buf, this`size, this`nanos, this`shouldSaveContent, buf
      ensures Valid() && Slice() == FileBuffer.Write(old(Slice()), data, off)
      ensures nanos == now && shouldSaveContent == (old(shouldSaveContent) || data != [])
      ensures written == |data| % 0x1_0000_0000
    {
      var sz := |data|;
      if off + sz > size {
        Resize(off + sz);
      }
      ghost var before := buf[..];
      forall i | 0 <= i < sz { buf[off + i] := data[i]; }
      assert buf[..] == Overlay(before, off, data);
      nanos := now;
      if sz > 0 { shouldSaveContent := true; }
      written := sz % 0x1_0000_0000;
    }

    method Read(n: nat, off: nat) returns (r: bytes)
      requires Valid()
      ensures r == FileBuffer.Read(Slice(), n, off)
    {
      if off > size { return []; }
      var end := off + n;
      if end > size { end := size; }
      r := buf[off..end];
    }

    /** The first half of Setattr. */
    method Change(change: Change, size: Option<nat>, now: int64)
      requires Valid() && change.size == size.Some?
      modifies this`user, this`group, this`mode, this`nanos, this`buf, this`size, this`shouldSaveContent, this`shouldSaveMetadata
      ensures Valid() && View() == Changed(old(View()), change, old(Resized(size)), now)
      ensures size == None ==> buf == old(buf) && this.size == old(this.size)
    {
      hide Chmod, FileBuffer.Resize;
      ChangeFields(change);
      if size.Some? {
        Resize(size.value);
        assert buf[..this.size] == Slice().Content();
        nanos := now;
        shouldSaveContent := true;
      }
      shouldSaveMetadata := true;
    }

    method ChangeFields(change: Change)
      modifies this`user, this`group, this`mode, this`nanos
      ensures nanos == Or(change.mtime, old(nanos)) && user == Or(change.uid, old(user)) && group == Or(change.gid, old(group))
      ensures mode == if change.mode.Some? then Chmod(old(mode), change.mode.value) else old(mode)
    {
      hide Chmod;
      if change.mtime.Some? { nanos := change.mtime.value; }
      if change.uid.Some? { user := change.uid.value; }
      if change.gid.Some? { group := change.gid.value; }
      if change.mode.Some? { mode := Chmod(mode, change.mode.value); }
    }

    /** The roll-back of Setattr, from the values that it has set aside. */
    method Revert(change: Change, rbtime: int64, rbuser: uint32, rbgroup: uint32, rbmode: uint32,
        rbbuf: array<byte>, rbsize: nat, ghost was: Attrs)
      requires Valid() && rbsize <= rbbuf.Length
      requires was == was.(nanos := rbtime, user := rbuser, group := rbgroup, mode := rbmode, content := rbbuf[..rbsize])
      modifies this`user, this`group, this`mode, this`nanos, this`buf, this`size
      ensures Valid() && View() == Unchanged(old(View()), change, was)
    {
      RevertFields(change, rbtime, rbuser, rbgroup, rbmode);
      if change.size { buf, size := rbbuf, rbsize; }
    }

    method RevertFields(change: Change, rbtime: int64, rbuser: uint32, rbgroup: uint32, rbmode: uint32)
      modifies this`user, this`group, this`mode, this`nanos
      ensures nanos == (if change.mtime.Some? then rbtime else old(nanos)) && user == if change.uid.Some? then rbuser else old(user)
      ensures group == (if change.gid.Some? then rbgroup else old(group)) && mode == if change.mode.Some? then rbmode else old(mode)
    {
      if change.mtime.Some? { nanos := rbtime; }
      if change.uid.Some? { user := rbuser; }
      if change.gid.Some? { group := rbgroup; }
      if change.mode.Some? { mode := rbmode; }
    }

    /** The content at another size, if any. */
    ghost function Resized(size: Option<nat>): bytes
      requires Bounded()
      reads this`size, this`buf, buf
    {
      if size.Some? then FileBuffer.Resize(Slice(), size.value).Content() else []
    }

    /** A failed call restores user, group, mode and content bytes, and the time if it asked for one. It
        leaves the content key that the sync has set, which then is that of the refused content. */
    method Setattr(change: Change, size: Option<nat>, now: int64) returns (errno: Errno, ghost mid: Attrs)
      requires Valid() && factory.Valid() && change.size == size.Some?
      modifies this`user, this`group, this`mode, this`nanos, this`buf, this`size
      modifies this`version, this`contentKey, this`shouldSaveContent, this`shouldSaveMetadata, this`shouldReloadMetadata
      modifies factory.Services()
      ensures Valid() && factory.Valid()
      ensures Syncs(Changed(old(View()), change, old(Resized(size)), now), old(Links()), factory.blobs.store.hash,
        old(factory.Env()), mid, factory.Env(), errno)
      ensures View() == if errno == OK then mid else Unchanged(mid, change, old(View()))
    {
      hide Syncs, Changed, Unchanged, Links, Factory.Valid, Factory.Env;
      var rbtime, rbuser, rbgroup, rbmode := nanos, user, group, mode;
      var rbbuf, rbsize := buf, this.size;
      ghost var was := View();
      assert was == was.(nanos := rbtime, user := rbuser, group := rbgroup, mode := rbmode, content := rbbuf[..rbsize]);
      hide View;
      this.Change(change, size, now);
      errno := Sync();
      mid := View();
      if errno != OK {
        Revert(change, rbtime, rbuser, rbgroup, rbmode, rbbuf, rbsize, was);
      }
    }

    // ----- Creating -----

    /** createLockedChild; the full mode, the random key and the clock are parameters. */
    method CreateLockedChild(name: bytes, key: Key, mode: uint32, now: int64) returns (child: CryptNode)
      requires Valid() && hasChildren
      modifies this`children, factory`known
      ensures Valid() && fresh(child) && fresh(child.buf) && child.factory == factory && child.Valid()
      ensures child.View() == Created(key, mode, now) && child.children == map[] && child.Links() == map[] && !child.hasChildren
      ensures children == old(children)[name := child] && Links() == old(Links())[name := key]
      ensures factory.known == if key in old(factory.known) then old(factory.known) else old(factory.known)[key := child]
    {
      child := factory.AllocateNode(key, now);
      child.mode := mode;
      children := children[name := child];
    }

    /** The end of Create, Mkdir and Symlink: the child is synced first, and only then its directory;
        if either fails the name is dropped. (Mkdir and Symlink have marked the directory already.) */
    method SyncChildFirst(name: bytes, child: CryptNode) returns (errno: Errno, ghost e: Env)
      requires Valid() && child.Valid() && factory.Valid() && child.factory == factory && child != this
      modifies this`children, this`version, this`contentKey, this`shouldSaveContent, this`shouldSaveMetadata, this`shouldReloadMetadata
      modifies child`version, child`contentKey, child`shouldSaveContent, child`shouldSaveMetadata, child`shouldReloadMetadata
      modifies factory.Services()
      ensures Valid() && child.Valid() && factory.Valid()
      ensures SyncedInOrder(old(child.View()), old(child.Links()), child.View(), old(View()), old(Links()), View(),
        factory.blobs.store.hash, old(factory.Env()), e, factory.Env(), errno)
      ensures children == if errno == OK then old(children) else old(children) - {name}
    {
      hide Syncs, Links, View;
      errno := child.Sync();
      e := factory.Env();
      if errno != OK {
        children := children - {name};
        return;
      }
      errno := SyncOrDrop(name);
    }

    method SyncOrDrop(name: bytes) returns (errno: Errno)
      requires Valid() && factory.Valid()
      modifies this`children, this`version, this`contentKey, this`shouldSaveContent, this`shouldSaveMetadata, this`shouldReloadMetadata
      modifies factory.Services()
      ensures Valid() && factory.Valid() && errno in {OK, EIO}
      ensures Syncs(old(View()).(saveMetadata := true), old(Links()), factory.blobs.store.hash, old(factory.Env()),
        View(), factory.Env(), errno)
      ensures children == if errno == OK then old(children) else old(children) - {name}
    {
      hide Syncs, Links, Factory.Valid, Factory.Env;
      shouldSaveMetadata := true;
      errno := Sync();
      if errno != OK { children := children - {name}; }
    }

    method Mark()
      requires Valid()
      modifies this`shouldSaveMetadata
      ensures Valid() && View() == old(View()).(saveMetadata := true)
    {
      shouldSaveMetadata := true;
    }

    method SetContent(content: bytes)
      requires Valid()
      modifies this`buf, this`size, this`shouldSaveContent
      ensures Valid() && fresh(buf) && View() == old(View()).(saveContent := true, content := content)
    {
      shouldSaveContent := true;
      buf, size := new byte[|content|](i requires 0 <= i < |content| => content[i]), |content|;
      assert buf[..size] == content;
    }

    method CreateMarkedChild(name: bytes, key: Key, mode: uint32, now: int64) returns (child: CryptNode)
      requires Valid() && hasChildren
      modifies this`children, factory`known
      ensures Valid() && fresh(child) && fresh(child.buf) && child.factory == factory && child.Valid()
      ensures child.View() == Created(key, mode, now).(saveMetadata := true) && child.children == map[] && child.Links() == map[]
      ensures children == old(children)[name := child] && Links() == old(Links())[name := key]
    {
      hide View, Links, Valid, Bounded;
      child := CreateLockedChild(name, key, mode, now);
      child.Mark();
    }

    method CreateMarkedDirectory(name: bytes, key: Key, mode: uint32, now: int64) returns (child: CryptNode)
      requires Valid() && hasChildren
      modifies this`children, this`shouldSaveMetadata, factory`known
      ensures Valid() && fresh(child) && fresh(child.buf) && child.factory == factory && child.Valid() && child.hasChildren
      ensures child.View() == Created(key, mode, now).(saveMetadata := true) && child.children == map[] && child.Links() == map[]
      ensures children == old(children)[name := child] && Links() == old(Links())[name := key]
      ensures View() == old(View()).(saveMetadata := true)
    {
      hide View, Links, Bounded;
      child := CreateMarkedChild(name, key, mode, now);
      child.hasChildren := true;
      Mark();
    }

    method CreateMarkedLink(name: bytes, key: Key, now: int64, target: bytes) returns (child: CryptNode)
      requires Valid() && hasChildren
      modifies this`children, this`shouldSaveMetadata, factory`known
      ensures Valid() && fresh(child) && fresh(child.buf) && child.factory == factory && child.Valid()
      ensures child.View() == Created(key, S_IFLNK, now).(saveMetadata := true, saveContent := true, content := target)
      ensures child.children == map[] && child.Links() == map[]
      ensures children == old(children)[name := child] && Links() == old(Links())[name := key]
      ensures View() == old(View()).(saveMetadata := true)
    {
      hide View, Links, Valid, Bounded;
      child := CreateMarkedChild(name, key, S_IFLNK, now);
      child.SetContent(target);
      Mark();
    }

    /** If the name was new, a failed call leaves the directory as it was (see DropIsExact). */
    method Create(name: bytes, key: Key, mode: uint32, now: int64) returns (errno: Errno, child: CryptNode, ghost e: Env)
      requires Valid() && factory.Valid() && hasChildren
      modifies this`children, this`version, this`contentKey, this`shouldSaveContent, this`shouldSaveMetadata, this`shouldReloadMetadata
      modifies factory`known, factory.Services()
      ensures Valid() && factory.Valid() && fresh(child) && child.Valid() && child.children == map[]
      ensures SyncedInOrder(Created(key, WithBit(mode, S_IFREG), now).(saveMetadata := true), map[], child.View(),
        old(View()), old(Links())[name := key], View(), factory.blobs.store.hash, old(factory.Env()), e, factory.Env(), errno)
      ensures children == if errno == OK then old(children)[name := child] else old(children)[name := child] - {name}
    {
      hide SyncedInOrder, WithBit, View, Links, Valid, Bounded, Factory.Valid, Factory.Env;
      child := CreateMarkedChild(name, key, WithBit(mode, S_IFREG), now);
      errno, e := SyncChildFirst(name, child);
    }

    method Mkdir(name: bytes, key: Key, mode: uint32, now: int64) returns (errno: Errno, child: CryptNode, ghost e: Env)
      requires Valid() && factory.Valid() && hasChildren
      modifies this`children, this`version, this`contentKey, this`shouldSaveContent, this`shouldSaveMetadata, this`shouldReloadMetadata
      modifies factory`known, factory.Services()
      ensures Valid() && factory.Valid() && fresh(child) && child.Valid() && child.children == map[] && child.hasChildren
      ensures SyncedInOrder(Created(key, WithBit(mode, S_IFDIR), now).(saveMetadata := true), map[], child.View(),
        old(View()).(saveMetadata := true), old(Links())[name := key], View(),
        factory.blobs.store.hash, old(factory.Env()), e, factory.Env(), errno)
      ensures children == if errno == OK then old(children)[name := child] else old(children)[name := child] - {name}
    {
      hide SyncedInOrder, WithBit, View, Links, Valid, Bounded, Factory.Valid, Factory.Env;
      child := CreateMarkedDirectory(name, key, WithBit(mode, S_IFDIR), now);
      errno, e := SyncChildFirst(name, child);
    }

    method Symlink(target: bytes, name: bytes, key: Key, now: int64) returns (errno: Errno, child: CryptNode, ghost e: Env)
      requires Valid() && factory.Valid() && hasChildren
      modifies this`children, this`version, this`contentKey, this`shouldSaveContent, this`shouldSaveMetadata, this`shouldReloadMetadata
      modifies factory`known, factory.Services()
      ensures Valid() && factory.Valid() && fresh(child) && child.Valid() && child.children == map[]
      ensures SyncedInOrder(Created(key, S_IFLNK, now).(saveMetadata := true, saveContent := true, content := target), map[],
        child.View(), old(View()).(saveMetadata := true), old(Links())[name := key], View(),
        factory.blobs.store.hash, old(factory.Env()), e, factory.Env(), errno)
      ensures children == if errno == OK then old(children)[name := child] else old(children)[name := child] - {name}
    {
      hide SyncedInOrder, View, Links, Valid, Bounded, Factory.Valid, Factory.Env;
      child := CreateMarkedLink(name, key, now, target);
      assert factory.Valid() && factory.Env() == old(factory.Env());
      errno, e := SyncChildFirst(name, child);
    }

    // ----- Renaming -----

    method Move(name: bytes, child: CryptNode, newParent: CryptNode, newName: bytes)
      requires Valid() && newParent.Valid() && child.Valid() && newParent.hasChildren && child != this && child != newParent
      modifies this`children, this`shouldSaveMetadata, newParent`children, newParent`shouldSaveMetadata, child`shouldSaveMetadata
      ensures Valid() && newParent.Valid() && child.Valid()
      ensures child.View() == old(child.View()).(saveMetadata := true) && View() == old(View()).(saveMetadata := true)
      ensures newParent.View() == old(newParent.View()).(saveMetadata := true)
      ensures children == (if newParent == this then old(children)[newName := child] else old(children)) - {name}
      ensures newParent != this ==> newParent.children == old(newParent.children)[newName := child]
    {
      newParent.children := newParent.children[newName := child];
      children := children - {name};
      child.shouldSaveMetadata := true;
      newParent.shouldSaveMetadata := true;
      shouldSaveMetadata := true;
    }

    /** The child, its new parent and its old one are marked and then synced in this order; r1 and r2
        are the outcomes of the first two syncs, e1 and e2 what they lead to, and v what the second
        makes of the new parent. Nothing is taken back if a sync fails. */
    method Rename(name: bytes, child: CryptNode, newParent: CryptNode, newName: bytes)
      returns (errno: Errno, ghost e1: Env, ghost r1: Errno, ghost e2: Env, ghost r2: Errno, ghost v: Attrs)
      requires Valid() && newParent.Valid() && child.Valid() && factory.Valid() && newParent.hasChildren
      requires name in children && children[name] == child && child != this && child != newParent
      requires newParent.factory == factory && child.factory == factory
      modifies this`children, this`version, this`contentKey, this`shouldSaveContent, this`shouldSaveMetadata, this`shouldReloadMetadata
      modifies newParent`children, newParent`version, newParent`contentKey, newParent`shouldSaveContent,
        newParent`shouldSaveMetadata, newParent`shouldReloadMetadata
      modifies child`version, child`contentKey, child`shouldSaveContent, child`shouldSaveMetadata, child`shouldReloadMetadata
      modifies factory.Services()
      ensures Valid() && newParent.Valid() && child.Valid() && factory.Valid()
      ensures children == (if newParent == this then old(children)[newName := child] else old(children)) - {name}
      ensures newParent != this ==> newParent.children == old(newParent.children)[newName := child]
      ensures Syncs(old(child.View()).(saveMetadata := true), old(child.Links()), factory.blobs.store.hash,
        old(factory.Env()), child.View(), e1, r1)
      ensures r1 == OK ==> Syncs(old(newParent.View()).(saveMetadata := true), newParent.Links(), factory.blobs.store.hash, e1, v, e2, r2)
      ensures newParent != this ==> newParent.View() == if r1 == OK then v else old(newParent.View()).(saveMetadata := true)
      ensures r1 == OK && r2 == OK ==>
        Syncs(if newParent == this then v else old(View()).(saveMetadata := true), Links(), factory.blobs.store.hash,
          e2, View(), factory.Env(), errno)
      ensures r1 != OK ==> errno == r1 && factory.Env() == e1
      ensures r1 == OK && r2 != OK ==> errno == r2 && factory.Env() == e2
      ensures r1 != OK || (r2 != OK && newParent != this) ==> View() == old(View()).(saveMetadata := true)
      ensures r1 == OK && r2 != OK && newParent == this ==> View() == v
    {
      hide Syncs, Links, View, Bounded, Valid, Factory.Valid, Factory.Env;
      Move(name, child, newParent, newName);
      errno, e1, r1, e2, r2, v := SyncMoved(child, newParent);
    }

    method SyncMoved(child: CryptNode, newParent: CryptNode)
      returns (errno: Errno, ghost e1: Env, ghost r1: Errno, ghost e2: Env, ghost r2: Errno, ghost v: Attrs)
      requires Valid() && newParent.Valid() && child.Valid() && factory.Valid() && child != this && child != newParent
      requires newParent.factory == factory && child.factory == factory
      modifies this`version, this`contentKey, this`shouldSaveContent, this`shouldSaveMetadata, this`shouldReloadMetadata
      modifies newParent`version, newParent`contentKey, newParent`shouldSaveContent, newParent`shouldSaveMetadata, newParent`shouldReloadMetadata
      modifies child`version, child`contentKey, child`shouldSaveContent, child`shouldSaveMetadata, child`shouldReloadMetadata
      modifies factory.Services()
      ensures Valid() && newParent.Valid() && child.Valid() && factory.Valid()
      ensures Syncs(old(child.View()), old(child.Links()), factory.blobs.store.hash, old(factory.Env()), child.View(), e1, r1)
      ensures r1 == OK ==> Syncs(old(newParent.View()), old(newParent.Links()), factory.blobs.store.hash, e1, v, e2, r2)
      ensures newParent != this ==> newParent.View() == if r1 == OK then v else old(newParent.View())
      ensures r1 == OK && r2 == OK ==> Syncs(if newParent == this then v else old(View()), old(Links()), factory.blobs.store.hash,
        e2, View(), factory.Env(), errno)
      ensures r1 != OK ==> errno == r1 && factory.Env() == e1
      ensures r1 == OK && r2 != OK ==> errno == r2 && factory.Env() == e2
      ensures r1 != OK || (r2 != OK && newParent != this) ==> View() == old(View())
      ensures r1 == OK && r2 != OK && newParent == this ==> View() == v
    {
      hide Syncs, Links, View, Factory.Valid, Factory.Env;
      errno := child.Sync();
      e1, e2, v, r1, r2 := factory.Env(), factory.Env(), newParent.View(), errno, errno;
      if errno != OK { return; }
      errno, e2, r2, v := SyncParents(newParent);
    }

    method SyncParents(newParent: CryptNode) returns (errno: Errno, ghost e2: Env, ghost r2: Errno, ghost v: Attrs)
      requires Valid() && newParent.Valid() && factory.Valid() && newParent.factory == factory
      modifies this`version, this`contentKey, this`shouldSaveContent, this`shouldSaveMetadata, this`shouldReloadMetadata
      modifies newParent`version, newParent`contentKey, newParent`shouldSaveContent, newParent`shouldSaveMetadata, newParent`shouldReloadMetadata
      modifies factory.Services()
      ensures Valid() && newParent.Valid() && factory.Valid()
      ensures Syncs(old(newParent.View()), old(newParent.Links()), factory.blobs.store.hash, old(factory.Env()), v, e2, r2)
      ensures newParent != this ==> newParent.View() == v
      ensures r2 == OK ==> Syncs(if newParent == this then v else old(View()), old(Links()), factory.blobs.store.hash,
        e2, View(), factory.Env(), errno)
      ensures r2 != OK ==> errno == r2 && factory.Env() == e2 && View() == if newParent == this then v else old(View())
    {
      hide Syncs, Links, View;
      errno := newParent.Sync();
      e2, r2, v := factory.Env(), errno, newParent.View();
      if errno != OK { return; }
      errno := Sync();
    }

    // ----- Loading -----

    /** The objects that ExistingNode makes for the children of a record. */
    method ExistingChildren(links: map<bytes, Key>) returns (found: map<bytes, CryptNode>)
      modifies factory`known
      ensures found.Keys == links.Keys && Distinct(found) && Learned(old(factory.known), factory.known, found, links)
      ensures forall name :: name in found ==>
        fresh(found[name]) && fresh(found[name].buf) && factory.IsUnloaded(found[name], links[name])
    {
      hide Factory.IsUnloaded, Learned, Distinct;
      found := map[];
      var todo := links.Keys;
      NothingLearned(factory.known, links);
      while todo != {}
        invariant todo <= links.Keys && found.Keys == links.Keys - todo
        invariant forall name :: name in found ==>
          fresh(found[name]) && fresh(found[name].buf) && factory.IsUnloaded(found[name], links[name])
        invariant Distinct(found) && Learned(old(factory.known), factory.known, found, links)
        decreases todo
      {
        var name :| name in todo;
        ghost var before := factory.known;
        var child := factory.ExistingNode(links[name]);
        OneMoreLearned(old(factory.known), before, factory.known, found, links, name, child);
        found, todo := found[name := child], todo - {name};
      }
    }

    /** The outcome of a load of some key, against the fields and the children before it. */
    ghost predicate IsLoad(r: Checked<bool>, meta: Versioned, key: Key, was: Attrs, before: map<bytes, CryptNode>, hadChildren: bool)
      reads this, buf, children.Values, set n | n in children.Values :: n.buf
    {
      Bounded() &&
      if key !in meta then r == Fine(false) && View() == was && children == before && hasChildren == hadChildren else
        match Parse(meta[key].value)
        case Panic => r == Panic
        case Fine(rec) =>
          if rec.children != map[] && !IsDirectory(rec.mode) && !hadChildren then r == Panic
          else (
            && r == Fine(true) && View() == Loaded(was, key, meta[key].version, rec)
            && hasChildren == (IsDirectory(rec.mode) || hadChildren)
            && IsFilled(if IsDirectory(rec.mode) then map[] else before, rec.children))
    }

    /** The children are those of rest, and for each of the links an unloaded object of its own. */
    ghost predicate IsFilled(rest: map<bytes, CryptNode>, links: map<bytes, Key>)
      reads this`children, children.Values, set n | n in children.Values :: n.buf
    {
      && children.Keys == rest.Keys + links.Keys
      && (forall name :: name in rest && name !in links ==> children[name] == rest[name])
      && (forall name :: name in links ==> factory.IsUnloaded(children[name], links[name]))
      && (forall x, y :: x in links && y in links && children[x] == children[y] ==> x == y)
    }

    /** LoadMetadata and unserialize: false stands for an error of the store. A record with children
        needs a directory's mode, or else a Children map that is there already. */
    method LoadMetadata(key: Key) returns (r: Checked<bool>)
      requires Valid() && factory.Valid()
      modifies this, factory`known
      ensures Valid() && factory.Valid()
      ensures IsLoad(r, factory.metadata.store.View(), key, old(View()), old(children), old(hasChildren))
      ensures forall name :: name in children && !(name in old(children) && children[name] == old(children)[name]) ==>
        fresh(children[name]) && fresh(children[name].buf)
    {
      hide Parse, View, Loaded, Factory.IsUnloaded, Distinct;
      var e := factory.metadata.store.Get(key);
      if e == None { return Fine(false); }
      var rec :- Unserialize(e.value.value);
      if rec.children != map[] && !IsDirectory(rec.mode) && !hasChildren { return Panic; }
      Fill(key, e.value.version, rec);
      r := Fine(true);
    }

    method Fill(key: Key, version: uint64, rec: Record)
      requires Valid() && (rec.children != map[] ==> IsDirectory(rec.mode) || hasChildren)
      modifies this, factory`known
      ensures Valid() && View() == Loaded(old(View()), key, version, rec)
      ensures hasChildren == (IsDirectory(rec.mode) || old(hasChildren))
      ensures IsFilled(if IsDirectory(rec.mode) then map[] else old(children), rec.children)
      ensures forall name :: name in rec.children ==> fresh(children[name]) && fresh(children[name].buf)
      ensures forall k :: k in old(factory.known) ==> k in factory.known && factory.known[k] == old(factory.known)[k]
    {
      hide View, Factory.IsUnloaded, Loaded, IsFilled;
      FillFields(key, version, rec);
      FillChildren(IsDirectory(rec.mode), rec.children);
    }

    method FillChildren(directory: bool, links: map<bytes, Key>)
      requires Valid() && (links != map[] ==> directory || hasChildren)
      modifies this`children, this`hasChildren, factory`known
      ensures Valid() && View() == old(View()) && hasChildren == (directory || old(hasChildren))
      ensures IsFilled(if directory then map[] else old(children), links)
      ensures forall name :: name in links ==> fresh(children[name]) && fresh(children[name].buf)
      ensures forall k :: k in old(factory.known) ==> k in factory.known && factory.known[k] == old(factory.known)[k]
    {
      hide View, Factory.IsUnloaded, Learned;
      if directory { children, hasChildren := map[], true; }
      var found := ExistingChildren(links);
      LearnedKeeps(old(factory.known), factory.known, found, links);
      children := children + found;
    }

    method FillFields(key: Key, version: uint64, rec: Record)
      requires Bounded()
      modifies this`key, this`version, this`user, this`group, this`mode, this`nanos, this`contentKey, this`xattrs
      ensures View() == Loaded(old(View()), key, version, rec)
    {
      this.key, this.version := key, version;
      user, group, mode, nanos, contentKey := rec.user, rec.group, rec.mode, rec.nanos, rec.contentKey;
      if rec.xattrs != map[] { xattrs := rec.xattrs; }
    }

    method EnsureChildLoaded(child: CryptNode) returns (r: Checked<bool>)
      requires child.Valid() && factory.Valid() && child.factory == factory
      modifies child, factory`known
      ensures child.Valid() && factory.Valid()
      ensures old(child.mode) != MODE_NOT_LOADED ==> (
        && r == Fine(true) && child.View() == old(child.View())
        && child.children == old(child.children) && child.hasChildren == old(child.hasChildren))
      ensures old(child.mode) == MODE_NOT_LOADED ==> child.IsLoad(r, factory.metadata.store.View(), old(child.key),
        old(child.View()), old(child.children), old(child.hasChildren))
    {
      hide Parse, View, Loaded, IsLoad, Factory.IsUnloaded;
      if child.mode != MODE_NOT_LOADED { return Fine(true); }
      r := child.LoadMetadata(child.key);
    }

    // ----- Reloading -----

    /** A child under its new key, with a flag if that is another one. */
    method Rekey(key: Key)
      modifies this`key, this`shouldReloadMetadata
      ensures IsRekeyed(this, old(this.key), old(shouldReloadMetadata), key)
      ensures forall k, f :: old(IsRekeyed(this, k, f, k)) ==> IsRekeyed(this, k, f, key)
    {
      if this.key != key {
        this.key := key;
        shouldReloadMetadata := true;
      }
    }

    /** One turn of the first loop over children in reloadIfNeeded. */
    method AdoptChild(name: bytes, child: CryptNode, ghost before: map<bytes, CryptNode>)
      requires Distinct(before) && this !in before.Values && child !in before.Values
      requires name in children <==> name in before
      requires name in before ==> children[name] == before[name]
      modifies this`children, before.Values`key, before.Values`shouldReloadMetadata
      ensures children == if name in before then old(children) else old(children)[name := child]
      ensures forall n, k, f, l :: n in before && n != name && old(IsRekeyed(before[n], k, f, l)) ==> IsRekeyed(before[n], k, f, l)
      ensures name in before ==> forall k, f :: old(IsRekeyed(before[name], k, f, k)) ==> IsRekeyed(before[name], k, f, child.key)
    {
      if name in children {
        assert children[name] in before.Values;
        children[name].Rekey(child.key);
      } else {
        children := children[name := child];
      }
    }

    /** The first loop over children in reloadIfNeeded. */
    method AdoptChildren(found: map<bytes, CryptNode>)
      requires hasChildren && Distinct(children) && this !in children.Values
      requires forall name :: name in found ==> found[name] !in children.Values && found[name] != this
      modifies this`children, children.Values`key, children.Values`shouldReloadMetadata
      ensures children == found + old(children)
      ensures forall name :: name in found && name in old(children) ==>
        IsRekeyed(old(children)[name], old(children[name].key), old(children[name].shouldReloadMetadata), found[name].key)
      ensures forall name :: name in old(children) && name !in found ==>
        IsRekeyed(old(children)[name], old(children[name].key), old(children[name].shouldReloadMetadata), old(children[name].key))
    {
      hide Links, IsRekeyed;
      ghost var before := children;
      var todo := found.Keys;
      forall name | name in before ensures IsRekeyed(before[name], before[name].key, before[name].shouldReloadMetadata, before[name].key) {
        SameKey(before[name]);
      }
      while todo != {}
        invariant todo <= found.Keys && children.Keys == before.Keys + (found.Keys - todo)
        invariant forall name :: name in children ==> children[name] == if name in before then before[name] else found[name]
        invariant forall name :: name in before ==> IsRekeyed(before[name], old(children[name].key),
          old(children[name].shouldReloadMetadata), if name in found && name !in todo then found[name].key else old(children[name].key))
        decreases todo
      {
        var name :| name in todo;
        AdoptChild(name, found[name], before);
        todo := todo - {name};
      }
    }

    /** The second loop over children in reloadIfNeeded. */
    method DropChildren(found: map<bytes, CryptNode>)
      requires found.Keys <= children.Keys
      modifies this`children
      ensures children.Keys == found.Keys && forall name :: name in found ==> children[name] == old(children)[name]
    {
      var todo := children.Keys;
      while todo != {}
        invariant found.Keys <= children.Keys <= found.Keys + todo && todo <= old(children).Keys
        invariant children.Keys <= old(children).Keys && forall name :: name in children ==> children[name] == old(children)[name]
        decreases todo
      {
        var name :| name in todo;
        if name !in found { children := children - {name}; }
        todo := todo - {name};
      }
    }

    /** In the end the names are those of the record, a name that was there before has kept its object,
        and a new name has an unloaded one. */
    ghost predicate IsReconciled(before: map<bytes, CryptNode>, links: map<bytes, Key>)
      reads this`children, children.Values, set n | n in children.Values :: n.buf
    {
      && children.Keys == links.Keys
      && (forall name :: name in links ==> children[name].key == links[name])
      && (forall name :: name in links && name in before ==> children[name] == before[name])
      && (forall name :: name in links && name !in before ==> factory.IsUnloaded(children[name], links[name]))
    }

    /** Both loops over children in reloadIfNeeded. */
    method Reconcile(found: map<bytes, CryptNode>, ghost links: map<bytes, Key>)
      requires hasChildren && Distinct(children) && this !in children.Values && found.Keys == links.Keys
      requires forall name :: name in found ==>
        found[name] !in children.Values && found[name] != this && factory.IsUnloaded(found[name], links[name])
      modifies this`children, children.Values`key, children.Values`shouldReloadMetadata
      ensures IsReconciled(old(children), links)
      ensures forall name :: name in old(children) ==>
        IsRekeyed(old(children)[name], old(children[name].key), old(children[name].shouldReloadMetadata),
          if name in links then links[name] else old(children[name].key))
    {
      hide Factory.IsUnloaded;
      UnloadedKeys(found, links);
      AdoptChildren(found);
      DropChildren(found);
    }

    lemma UnloadedKeys(found: map<bytes, CryptNode>, links: map<bytes, Key>)
      requires found.Keys == links.Keys && forall name :: name in found ==> factory.IsUnloaded(found[name], links[name])
      ensures forall name :: name in found ==> found[name].key == links[name]
    {
    }

    /** A new object, filled from the store. */
    method LoadAnew(key: Key) returns (r: Checked<bool>, nn: CryptNode, ghost rec: Record)
      requires factory.Valid()
      modifies factory`known
      ensures factory.Valid() && fresh(nn) && nn.Valid()
      ensures r == Fine(false) <==> key !in factory.metadata.store.View()
      ensures r == Fine(true) ==> (
        && Parse(factory.metadata.store.View()[key].value) == Fine(rec)
        && nn.version == factory.metadata.store.View()[key].version && nn.Fields() == rec.(children := map[])
        && nn.children.Keys == rec.children.Keys && (rec.children != map[] ==> IsDirectory(rec.mode))
        && forall name :: name in rec.children ==> fresh(nn.children[name]) && factory.IsUnloaded(nn.children[name], rec.children[name]))
      ensures r == Panic ==> match Parse(factory.metadata.store.View()[key].value)
        case Panic => true
        case Fine(rec) => rec.children != map[] && !IsDirectory(rec.mode)
    {
      hide Parse, Factory.IsUnloaded;
      nn := new CryptNode(factory, key, 0, 0);
      r := nn.LoadMetadata(key);
      rec := if r == Fine(true) then Parse(factory.metadata.store.View()[key].value).value else nn.Fields();
    }

    /** What a fresh node has taken from its record. */
    ghost function Fields(): Record
      reads this`user, this`group, this`mode, this`nanos, this`contentKey, this`xattrs
    {
      Record(user, group, mode, nanos, contentKey, xattrs, map[])
    }

    method TakeContent(key: bytes)
      requires Bounded()
      modifies this`contentKey, this`buf, this`size
      ensures Bounded() && contentKey == key && buf[..size] == if old(contentKey) == key then old(buf[..size]) else []
    {
      if contentKey != key {
        contentKey := key;
        buf, size := new byte[0], 0;
      }
    }

    method TakeFields(nn: CryptNode)
      requires Bounded() && nn != this
      modifies this`user, this`group, this`mode, this`nanos, this`version, this`xattrs, this`contentKey, this`buf, this`size
      modifies this`shouldSaveMetadata, this`shouldReloadMetadata, this`shouldSaveContent
      ensures Bounded() && View() == Reloaded(old(View()), nn.version, nn.Fields())
    {
      TakeAttributes(nn);
      TakeContent(nn.contentKey);
    }

    method TakeAttributes(nn: CryptNode)
      modifies this`user, this`group, this`mode, this`nanos, this`version, this`xattrs
      modifies this`shouldSaveMetadata, this`shouldReloadMetadata, this`shouldSaveContent
      ensures user == nn.user && group == nn.group && mode == nn.mode && nanos == nn.nanos && xattrs == nn.xattrs && version == nn.version
      ensures !shouldSaveMetadata && !shouldReloadMetadata && !shouldSaveContent
    {
      shouldSaveMetadata, shouldReloadMetadata, shouldSaveContent := false, false, false;
      user, group, mode, nanos := nn.user, nn.group, nn.mode, nn.nanos;
      if version != nn.version { version := nn.version; }
      xattrs := nn.xattrs;
    }

    /** reloadIfNeeded: false stands for an error of the store. */
    method ReloadIfNeeded() returns (r: Checked<bool>)
      requires Valid() && factory.Valid() && Distinct(children) && this !in children.Values
      modifies this, factory`known, children.Values`key, children.Values`shouldReloadMetadata
      ensures Valid() && factory.Valid() && key == old(key)
      ensures !old(shouldReloadMetadata) ==> r == Fine(true)
      ensures !old(shouldReloadMetadata) || r == Fine(false) ==>
        View() == old(View()) && children == old(children) && Links() == old(Links())
      ensures old(shouldReloadMetadata) ==>
        IsReload(r, factory.metadata.store.View(), old(View()), old(children), old(hasChildren))
      ensures r == Fine(true) ==> KeepsCache(old(View()), View())
      ensures r == Fine(true) ==> forall name :: name in old(children) ==>
        IsRekeyed(old(children)[name], old(children[name].key), old(children[name].shouldReloadMetadata),
          if name in children then children[name].key else old(children[name].key))
    {
      hide IsRekeyed, View, IsReload, KeepsCache;
      CacheRefl(View());
      if shouldReloadMetadata {
        r := Reload();
      } else {
        r := Fine(true);
        forall name | name in children ensures IsRekeyed(children[name], children[name].key, children[name].shouldReloadMetadata, children[name].key) {
          SameKey(children[name]);
        }
      }
    }

    /** The content is there still if its key is the same, and given up otherwise: a cache that was true
        stays true. */
    ghost predicate KeepsCache(was: Attrs, a: Attrs) {
      && a.content in {was.content, []} && (a.content == was.content <==> a.contentKey == was.contentKey || was.content == [])
      && (IsCached(was, factory.blobs.store.hash) ==> IsCached(a, factory.blobs.store.hash))
    }

    lemma CacheRefl(a: Attrs)
      ensures KeepsCache(a, a)
    {
    }

    lemma CacheKept(a: Attrs, version: uint64, rec: Record)
      ensures KeepsCache(a, Reloaded(a, version, rec))
    {
    }

    lemma SameKey(child: CryptNode)
      ensures IsRekeyed(child, child.key, child.shouldReloadMetadata, child.key)
    {
    }

    /** The outcome of a reload, against the fields and the children before it. */
    ghost predicate IsReload(r: Checked<bool>, meta: Versioned, was: Attrs, before: map<bytes, CryptNode>, hadChildren: bool)
      reads this, buf, children.Values, set n | n in children.Values :: n.buf
    {
      if was.key !in meta then r == Fine(false) else
        match Parse(meta[was.key].value)
        case Panic => r == Panic
        case Fine(rec) =>
          if rec.children != map[] && (!IsDirectory(rec.mode) || !hadChildren) then r == Panic
          else r == Fine(true) && ReloadedAs(was, meta[was.key].version, rec, before)
    }

    method Reload() returns (r: Checked<bool>)
      requires Valid() && factory.Valid() && Distinct(children) && this !in children.Values
      modifies this, factory`known, children.Values`key, children.Values`shouldReloadMetadata
      ensures Valid() && factory.Valid() && key == old(key)
      ensures r == Fine(false) ==> View() == old(View()) && children == old(children) && Links() == old(Links())
      ensures r == Fine(true) ==> KeepsCache(old(View()), View())
      ensures IsReload(r, factory.metadata.store.View(), old(View()), old(children), old(hasChildren))
      ensures r == Fine(true) ==> forall name :: name in old(children) ==>
        IsRekeyed(old(children)[name], old(children[name].key), old(children[name].shouldReloadMetadata),
          if name in children then children[name].key else old(children[name].key))
    {
      hide Parse, Factory.IsUnloaded, IsRekeyed, Reloaded, ReloadedAs, IsReconciled, Links, Factory.Valid, Distinct, KeepsCache;
      var nn;
      ghost var rec;
      r, nn, rec := LoadAnew(key);
      if r == Panic || !r.value { return; }
      assert nn.children == map[] <==> rec.children == map[];
      if nn.children != map[] && !hasChildren { return Panic; }
      TakeOver(nn, rec);
    }

    method TakeOver(nn: CryptNode, ghost rec: Record)
      requires Valid() && Distinct(children) && this !in children.Values && nn != this && (rec.children != map[] ==> hasChildren)
      requires nn.Fields() == rec.(children := map[]) && nn.children.Keys == rec.children.Keys
      requires forall name :: name in nn.children ==> nn.children[name] !in children.Values && nn.children[name] != this
      requires forall name :: name in nn.children ==> factory.IsUnloaded(nn.children[name], rec.children[name])
      modifies this, children.Values`key, children.Values`shouldReloadMetadata
      ensures Valid() && key == old(key) && ReloadedAs(old(View()), old(nn.version), rec, old(children)) && KeepsCache(old(View()), View())
      ensures forall name :: name in old(children) ==>
        IsRekeyed(old(children)[name], old(children[name].key), old(children[name].shouldReloadMetadata),
          if name in children then children[name].key else old(children[name].key))
    {
      hide Factory.IsUnloaded, IsRekeyed, Reloaded, View, KeepsCache;
      CacheKept(old(View()), nn.version, rec);
      ReloadedFields(old(View()), nn.version, rec);
      TakeFields(nn);
      if hasChildren { Reconcile(nn.children, rec.children); }
    }

    ghost predicate ReloadedAs(was: Attrs, version: uint64, rec: Record, before: map<bytes, CryptNode>)
      reads this, buf, children.Values, set n | n in children.Values :: n.buf
    {
      Bounded() && View() == Reloaded(was, version, rec) && IsReconciled(before, rec.children)
    }
  }
}
