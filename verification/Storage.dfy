/** The stores of pkg/storage: the in-memory store, the versioned wrapper that the metadata server
    runs on top of it, the content-addressed blob store, and the application of messages. */
module Storage {
  import opened Types
  import opened Bits
  import opened Messages

  /** A Store implementation powered by a map. Values are immutable here; see README.md. */
  class InMemoryStore {
    var m: map<bytes, bytes>

    constructor ()
      ensures m == map[]
    {
      m := map[];
    }

    method Put(key: bytes, value: bytes)
      modifies this
      ensures m == old(m)[key := value]
    {
      m := m[key := value];
    }

    method Get(key: bytes) returns (value: Option<bytes>)
      ensures value == if key in m then Some(m[key]) else None
    {
      value := if key in m then Some(m[key]) else None;
    }
  }

  // ----- The 8-byte version header -----

  function BigEndian(v: nat, n: nat): (b: bytes)
    ensures |b| == n
  {
    if n == 0 then [] else BigEndian(v / 0x100, n - 1) + [v % 0x100]
  }

  function FromBigEndian(b: bytes): (v: nat)
    ensures v < Pow256(|b|)
  {
    if b == [] then 0 else 0x100 * FromBigEndian(b[..|b| - 1]) + b[|b| - 1]
  }

  /** The bytes of the little-endian form, the last one first. */
  lemma {:induction false} BigEndianIsReversed(v: nat, n: nat, i: nat)
    requires i < n
    ensures BigEndian(v, n)[i] == LittleEndian(v, n)[n - 1 - i]
  {
    if i < n - 1 { BigEndianIsReversed(v / 0x100, n - 1, i); }
  }

  lemma {:induction false} BigEndianRoundTrip(v: nat, n: nat)
    requires v < Pow256(n)
    ensures FromBigEndian(BigEndian(v, n)) == v
  {
    if n > 0 {
      BigEndianRoundTrip(v / 0x100, n - 1);
      assert BigEndian(v, n)[..n - 1] == BigEndian(v / 0x100, n - 1);
    }
  }

  // ----- Versioned values -----

  datatype Entry<V> = Entry(version: uint64, value: V)

  /** Version numbers are 64 bits wide, and so is the sum of one of them and 1. */
  function Next(version: uint64): uint64 {
    (version as int + 1) % 0x1_0000_0000_0000_0000
  }

  /** The store after a put, or None when the put is stale. */
  function PutVersion<K, V>(s: map<K, Entry<V>>, version: uint64, k: K, v: V): (r: Option<map<K, Entry<V>>>)
  {
    if k in s && version < Next(s[k].version) then None else Some(s[k := Entry(version, v)])
  }

  /** The staleness check lets versions fall back only behind the greatest version there is. */
  lemma AcceptedVersionIncreases<K, V>(s: map<K, Entry<V>>, version: uint64, k: K, v: V)
    requires k in s && PutVersion(s, version, k, v).Some?
    ensures version > s[k].version || s[k].version == MAX_UINT64
    ensures s[k].version == MAX_UINT64 ==> forall w: uint64 :: PutVersion(s, w, k, v).Some?
  {
  }

  class VersionedWrapper {
    const delegate: InMemoryStore

    constructor (delegate: InMemoryStore)
      requires delegate.m == map[]
      ensures this.delegate == delegate && Valid() && View() == map[]
    {
      this.delegate := delegate;
    }

    /** Everything in the delegate was put there by this wrapper. */
    ghost predicate Valid()
      reads delegate
    {
      forall k :: k in delegate.m ==> |delegate.m[k]| >= 8
    }

    ghost function View(): map<bytes, Entry<bytes>>
      requires Valid()
      reads delegate
    {
      WidthsOfMachineIntegers();
      map k | k in delegate.m :: Entry(FromBigEndian(delegate.m[k][..8]), delegate.m[k][8..])
    }

    method Put(version: uint64, key: bytes, value: bytes) returns (stale: bool)
      requires Valid()
      modifies delegate
      ensures Valid()
      ensures match PutVersion(old(View()), version, key, value)
        case None => stale && delegate.m == old(delegate.m)
        case Some(s) => !stale && View() == s
    {
      var curr := delegate.Get(key);
      WidthsOfMachineIntegers();
      if curr.Some? {
        var expectedVersion := Next(FromBigEndian(curr.value[..8]));
        if version < expectedVersion {
          return true;
        }
      }
      var val := BigEndian(version, 8) + value;
      BigEndianRoundTrip(version, 8);
      assert val[..8] == BigEndian(version, 8) && val[8..] == value;
      delegate.Put(key, val);
      stale := false;
    }

    method Get(key: bytes) returns (r: Option<Entry<bytes>>)
      requires Valid()
      ensures r == if key in View() then Some(View()[key]) else None
    {
      var value := delegate.Get(key);
      if value == None { return None; }
      WidthsOfMachineIntegers();
      r := Some(Entry(FromBigEndian(value.value[..8]), value.value[8..]));
    }
  }

  // ----- Messages applied to a versioned store -----

  function Ascii(s: string): (b: bytes)
    ensures |b| == |s|
  {
    seq(|s|, i requires 0 <= i < |s| => s[i] as int % 0x100)
  }

  const NOT_FOUND := Ascii("Not found")
  const STALE_PUT := Ascii("stale put")
  const CANNOT_BE_APPLIED := Ascii("messages of this kind cannot be applied")
  const UNKNOWN_KIND := Ascii("unknown message kind")

  type Versioned = map<bytes, Entry<bytes>>

  /** The answer to a message, and the store afterwards. */
  function Apply(s: Versioned, m: Message): (Message, Versioned) {
    if m.kind == KIND_GET then
      if m.key in s then (NewPutMessage(m.tag, m.key, s[m.key].value, s[m.key].version), s)
      else (NewErrorMessage(m.tag, NOT_FOUND), s)
    else if m.kind == KIND_PUT then
      match PutVersion(s, m.version, m.key, m.value)
      case None => (NewErrorMessage(m.tag, STALE_PUT), s)
      case Some(t) => (m, t)
    else if m.kind == KIND_AUTH || m.kind == KIND_ERROR then (NewErrorMessage(m.tag, CANNOT_BE_APPLIED), s)
    else (NewErrorMessage(m.tag, UNKNOWN_KIND), s)
  }

  /** The test by which the server decides to fan a message out. */
  predicate Accepted(s: Versioned, m: Message) {
    m.kind == KIND_PUT && Apply(s, m).0.kind == KIND_PUT
  }

  method ApplyMessage(store: VersionedWrapper, m: Message) returns (out: Message)
    requires store.Valid()
    modifies store.delegate
    ensures store.Valid() && (out, store.View()) == Apply(old(store.View()), m)
  {
    if m.kind == KIND_GET {
      var r := store.Get(m.key);
      match r
      case None => out := NewErrorMessage(m.tag, NOT_FOUND);
      case Some(e) => out := NewPutMessage(m.tag, m.key, e.value, e.version);
    } else if m.kind == KIND_PUT {
      var stale := store.Put(m.version, m.key, m.value);
      out := if stale then NewErrorMessage(m.tag, STALE_PUT) else m;
    } else if m.kind == KIND_AUTH || m.kind == KIND_ERROR {
      out := NewErrorMessage(m.tag, CANNOT_BE_APPLIED);
    } else {
      out := NewErrorMessage(m.tag, UNKNOWN_KIND);
    }
  }

  /** The reply keeps the tag, an accepted put comes back unchanged, anything else changes nothing. */
  lemma ReplyMatchesRequest(s: Versioned, m: Message)
    ensures Apply(s, m).0.tag == m.tag
    ensures if Accepted(s, m) then Apply(s, m) == (m, s[m.key := Entry(m.version, m.value)]) else Apply(s, m).1 == s
  {
  }

  // ----- Blobs -----

  function PutBlob(hash: bytes -> bytes, blobs: map<bytes, bytes>, value: bytes): map<bytes, bytes> {
    blobs[hash(value) := value]
  }

  class BlobStoreWrapper {
    const delegate: InMemoryStore
    const hash: bytes -> bytes

    constructor (delegate: InMemoryStore, hash: bytes -> bytes)
      ensures this.delegate == delegate && this.hash == hash
    {
      this.delegate, this.hash := delegate, hash;
    }

    method Put(value: bytes) returns (key: bytes)
      modifies delegate
      ensures key == hash(value) && delegate.m == PutBlob(hash, old(delegate.m), value)
    {
      key := hash(value);
      delegate.Put(key, value);
    }

    method Get(key: bytes) returns (value: Option<bytes>)
      ensures value == if key in delegate.m then Some(delegate.m[key]) else None
    {
      value := delegate.Get(key);
    }
  }
}
