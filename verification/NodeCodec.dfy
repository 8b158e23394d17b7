/** The stored form of a node's metadata: serialize and unserialize of pkg/node/metadata.go. */
module NodeCodec {
  import opened Types
  import opened Bits

  const NODE_KEY_LEN := 20
  const S_IFDIR: uint32 := 0x4000

  type Key = k: bytes | |k| == NODE_KEY_LEN witness Zeros(NODE_KEY_LEN)

  type int64 = x: int | -0x8000_0000_0000_0000 <= x < 0x8000_0000_0000_0000

  /** The part of a node that is persisted; nanos is Time.UnixNano(), children maps names to keys. */
  datatype Record = Record(
    user: uint32,
    group: uint32,
    mode: uint32,
    nanos: int64,
    contentKey: bytes,
    xattrs: map<bytes, bytes>,
    children: map<bytes, Key>)

  /** mode & S_IFDIR != 0 */
  predicate IsDirectory(mode: uint32) {
    mode / S_IFDIR % 2 == 1
  }

  /** Go's conversions between int64 and uint64 keep the 64 bits. */
  function Unsigned(n: int64): (u: uint64) {
    if n >= 0 then n else n + 0x1_0000_0000_0000_0000
  }

  function Signed(u: uint64): (n: int64)
    ensures Unsigned(n) == u
  {
    if u < 0x8000_0000_0000_0000 then u else u - 0x1_0000_0000_0000_0000
  }

  /** copy(key[:], childKey) into a zeroed array. */
  function ToKey(b: bytes): Key {
    if |b| >= NODE_KEY_LEN then b[..NODE_KEY_LEN] else b + Zeros(NODE_KEY_LEN - |b|)
  }

  // ----- Iteration orders -----

  /** One order in which a Go range loop may visit the keys of a map. */
  ghost predicate Enumerates(xs: seq<bytes>, s: set<bytes>) {
    && (forall i, j :: 0 <= i < j < |xs| ==> xs[i] != xs[j])
    && (forall x :: x in xs <==> x in s)
  }

  lemma EnumeratesMore(xs: seq<bytes>, s: set<bytes>, x: bytes)
    requires Enumerates(xs, s) && x !in s
    ensures Enumerates(xs + [x], s + {x})
  {
    assert x !in xs;
  }

  lemma {:induction false} AnyOrder(s: set<bytes>) returns (xs: seq<bytes>)
    ensures Enumerates(xs, s)
    decreases s
  {
    if s == {} {
      xs := [];
    } else {
      var x :| x in s;
      var less := AnyOrder(s - {x});
      EnumeratesMore(less, s - {x}, x);
      assert s - {x} + {x} == s;
      xs := less + [x];
    }
  }

  lemma EnumeratesLess(xs: seq<bytes>, s: set<bytes>)
    requires Enumerates(xs, s) && xs != []
    ensures var last := xs[|xs| - 1];
      Enumerates(xs[..|xs| - 1], s - {last}) && last in s && xs == xs[..|xs| - 1] + [last]
  {
    var last := xs[|xs| - 1];
    assert last in xs;
    assert xs == xs[..|xs| - 1] + [last];
  }

  function Sum(f: bytes -> nat, xs: seq<bytes>): nat {
    if xs == [] then 0 else Sum(f, xs[..|xs| - 1]) + f(xs[|xs| - 1])
  }

  ghost function Total(f: bytes -> nat, s: set<bytes>): nat {
    if s == {} then 0 else
      var x :| x in s;
      f(x) + Total(f, s - {x})
  }

  lemma {:induction false} TotalWithout(f: bytes -> nat, s: set<bytes>, y: bytes)
    requires y in s
    ensures Total(f, s) == f(y) + Total(f, s - {y})
    decreases s
  {
    var x :| x in s && Total(f, s) == f(x) + Total(f, s - {x});
    if x != y {
      TotalWithout(f, s - {x}, y);
      TotalWithout(f, s - {y}, x);
      assert s - {x} - {y} == s - {y} - {x};
    }
  }

  lemma {:induction false} TotalMonotone(f: bytes -> nat, s: set<bytes>, t: set<bytes>)
    requires s <= t
    ensures Total(f, s) <= Total(f, t)
    decreases t - s
  {
    if s != t {
      var x :| x in t && x !in s;
      TotalWithout(f, s + {x}, x);
      assert s + {x} - {x} == s;
      TotalMonotone(f, s + {x}, t);
    }
  }

  lemma {:induction false} SumIsTotal(f: bytes -> nat, xs: seq<bytes>, s: set<bytes>)
    requires Enumerates(xs, s)
    ensures Sum(f, xs) == Total(f, s)
  {
    if xs == [] {
      assert forall x :: x in s ==> x in xs;
    } else {
      EnumeratesLess(xs, s);
      SumIsTotal(f, xs[..|xs| - 1], s - {xs[|xs| - 1]});
      TotalWithout(f, s, xs[|xs| - 1]);
    }
  }

  lemma {:induction false} EnumerationSize(xs: seq<bytes>, s: set<bytes>)
    requires Enumerates(xs, s)
    ensures |xs| == |s|
  {
    if xs == [] {
      assert forall x :: x in s ==> x in xs;
    } else {
      EnumeratesLess(xs, s);
      EnumerationSize(xs[..|xs| - 1], s - {xs[|xs| - 1]});
    }
  }

  /** The bytes that one entry of a map takes: a name, a value and their two lengths. A child's key
      is written as a value, so one set of definitions serves both maps. */
  function Room(m: map<bytes, bytes>): bytes -> nat {
    name => 4 + |name| + if name in m then |m[name]| else 0
  }

  // ----- Writing -----

  /** A buffer being filled, and the index behind what has been put so far. */
  datatype Cursor = Cursor(buf: bytes, at: nat)

  function PutRaw(c: Cursor, p: bytes): (r: Cursor)
    requires c.at + |p| <= |c.buf|
    ensures |r.buf| == |c.buf| && r.at == c.at + |p|
  {
    Cursor(Overlay(c.buf, c.at, p), c.at + |p|)
  }

  function PutString(c: Cursor, v: bytes): (r: Cursor)
    requires c.at + 2 + |v| <= |c.buf|
    ensures |r.buf| == |c.buf| && r.at == c.at + 2 + Low16(|v|) <= c.at + 2 + |v|
  {
    Cursor(Overlay(c.buf, c.at, Prefixed(v, |c.buf| - c.at)), c.at + 2 + Low16(|v|))
  }

  function PutEntries(c: Cursor, m: map<bytes, bytes>, xs: seq<bytes>): (r: Cursor)
    requires forall x :: x in xs ==> x in m
    requires c.at + Sum(Room(m), xs) <= |c.buf|
    ensures |r.buf| == |c.buf| && r.at <= c.at + Sum(Room(m), xs)
  {
    if xs == [] then c
    else
      var last := xs[|xs| - 1];
      assert last in xs;
      PutString(PutString(PutEntries(c, m, xs[..|xs| - 1]), last), m[last])
  }

  function FixedPart(r: Record): (p: bytes)
    ensures |p| == 20
  {
    LittleEndian(r.user, 4) + LittleEndian(r.group, 4) + LittleEndian(r.mode, 4) + LittleEndian(Unsigned(r.nanos), 8)
  }

  function SizeFor(r: Record, xs: seq<bytes>, cs: seq<bytes>): nat {
    24 + |r.contentKey| + Sum(Room(r.xattrs), xs) + Sum(Room(r.children), cs)
  }

  function PutFront(c: Cursor, r: Record): (d: Cursor)
    requires c.at + 24 + |r.contentKey| <= |c.buf|
    ensures |d.buf| == |c.buf| && d.at <= c.at + 24 + |r.contentKey|
  {
    PutRaw(PutString(PutRaw(c, FixedPart(r)), r.contentKey), Bytes16(Low16(|r.xattrs|)))
  }

  /** The buffer that serialize fills when it visits the attributes in order xs and the children in
      order cs. Nothing is assumed about lengths: a longer string is cut down as the code does. */
  function Fill(r: Record, xs: seq<bytes>, cs: seq<bytes>): (c: Cursor)
    requires forall x :: x in xs ==> x in r.xattrs
    requires forall x :: x in cs ==> x in r.children
    ensures |c.buf| == SizeFor(r, xs, cs)
  {
    var c := PutFront(Cursor(Zeros(SizeFor(r, xs, cs)), 0), r);
    PutEntries(PutEntries(c, r.xattrs, xs), r.children, cs)
  }

  /** buf is one of the buffers that serialize may produce for r. */
  ghost predicate IsImage(buf: bytes, r: Record) {
    exists xs, cs ::
      && Enumerates(xs, r.xattrs.Keys)
      && Enumerates(cs, r.children.Keys)
      && buf == Fill(r, xs, cs).buf
  }

  /** Every record can be serialized. */
  lemma AnyImage(r: Record) returns (buf: bytes)
    ensures IsImage(buf, r)
  {
    hide Fill;
    var xs := AnyOrder(r.xattrs.Keys);
    var cs := AnyOrder(r.children.Keys);
    buf := Fill(r, xs, cs).buf;
  }

  /** The first two loops of serialize. */
  method SizeOf(r: Record) returns (size: nat)
    ensures size == 24 + |r.contentKey| + Total(Room(r.xattrs), r.xattrs.Keys) + Total(Room(r.children), r.children.Keys)
  {
    size := 24 + |r.contentKey|;
    var all := r.xattrs.Keys;
    var todo := all;
    assert all - all == {};
    while todo != {}
      invariant todo <= all
      invariant size == 24 + |r.contentKey| + Total(Room(r.xattrs), all - todo)
      decreases todo
    {
      var attr :| attr in todo;
      size := size + 4 + |attr| + |r.xattrs[attr]|;
      OneMore(Room(r.xattrs), all, todo, attr);
      todo := todo - {attr};
    }
    assert all - {} == all;
    ghost var fixed := size;
    all := r.children.Keys;
    todo := all;
    assert all - all == {};
    while todo != {}
      invariant todo <= all
      invariant size == fixed + Total(Room(r.children), all - todo)
      decreases todo
    {
      var childName :| childName in todo;
      size := size + 4 + NODE_KEY_LEN + |childName|;
      OneMore(Room(r.children), all, todo, childName);
      todo := todo - {childName};
    }
    assert all - {} == all;
  }

  lemma OneMore(f: bytes -> nat, all: set<bytes>, todo: set<bytes>, x: bytes)
    requires x in todo && todo <= all
    ensures Total(f, all - (todo - {x})) == f(x) + Total(f, all - todo)
    ensures Total(f, all - (todo - {x})) <= Total(f, all)
  {
    TotalWithout(f, all - (todo - {x}), x);
    assert all - (todo - {x}) - {x} == all - todo;
    TotalMonotone(f, all - (todo - {x}), all);
  }

  /** One more key visited: the order so far grows, and the precomputed room suffices. */
  lemma VisitOneMore(f: bytes -> nat, all: set<bytes>, todo: set<bytes>, xs: seq<bytes>, x: bytes)
    requires todo <= all && x in todo && Enumerates(xs, all - todo)
    ensures Enumerates(xs + [x], all - (todo - {x}))
    ensures Sum(f, xs + [x]) == Sum(f, xs) + f(x) <= Total(f, all)
  {
    OneMore(f, all, todo, x);
    EnumeratesMore(xs, all - todo, x);
    assert all - todo + {x} == all - (todo - {x});
    SumIsTotal(f, xs, all - todo);
    assert (xs + [x])[..|xs|] == xs;
  }

  lemma PutOneMoreEntry(c: Cursor, m: map<bytes, bytes>, xs: seq<bytes>, x: bytes)
    requires (forall y :: y in xs ==> y in m) && x in m
    requires c.at + Sum(Room(m), xs) + Room(m)(x) <= |c.buf|
    requires Sum(Room(m), xs + [x]) == Sum(Room(m), xs) + Room(m)(x)
    ensures PutEntries(c, m, xs + [x]) == PutString(PutString(PutEntries(c, m, xs), x), m[x])
  {
    assert (xs + [x])[..|xs|] == xs;
  }

  method PutPair(b: array<byte>, at0: nat, name: bytes, value: bytes) returns (at: nat)
    requires at0 + 4 + |name| + |value| <= b.Length
    modifies b
    ensures Cursor(b[..], at) == PutString(PutString(Cursor(old(b[..]), at0), name), value)
  {
    hide Prefixed, Overlay;
    at := Putb(b, at0, name);
    at := Putb(b, at, value);
  }

  method PutEntriesInto(b: array<byte>, at0: nat, m: map<bytes, bytes>) returns (at: nat, ghost xs: seq<bytes>)
    requires at0 + Total(Room(m), m.Keys) <= b.Length
    modifies b
    ensures Enumerates(xs, m.Keys) && Sum(Room(m), xs) == Total(Room(m), m.Keys)
    ensures Cursor(b[..], at) == PutEntries(Cursor(old(b[..]), at0), m, xs)
  {
    ghost var f, start := Room(m), Cursor(b[..], at0);
    var all := m.Keys;
    var todo := all;
    at, xs := at0, [];
    while todo != {}
      invariant todo <= all && Enumerates(xs, all - todo)
      invariant at0 + Sum(f, xs) <= b.Length
      invariant Cursor(b[..], at) == PutEntries(start, m, xs)
      decreases todo
    {
      var name :| name in todo;
      VisitOneMore(f, all, todo, xs, name);
      PutOneMoreEntry(start, m, xs, name);
      at := PutPair(b, at, name, m[name]);
      todo, xs := todo - {name}, xs + [name];
    }
    assert all - {} == all;
    SumIsTotal(f, xs, all);
  }

  method PutFixedInto(b: array<byte>, r: Record) returns (at: nat)
    requires 20 <= b.Length
    modifies b
    ensures Cursor(b[..], at) == PutRaw(Cursor(old(b[..]), 0), FixedPart(r))
  {
    ghost var before := b[..];
    at := Put32(b, 0, r.user);
    at := Put32(b, at, r.group);
    at := Put32(b, at, r.mode);
    at := Put64(b, at, Unsigned(r.nanos));
    FourPieces(before, LittleEndian(r.user, 4), LittleEndian(r.group, 4), LittleEndian(r.mode, 4),
      LittleEndian(Unsigned(r.nanos), 8));
  }

  lemma FourPieces(buf: bytes, p: bytes, q: bytes, r: bytes, s: bytes)
    requires |p| + |q| + |r| + |s| <= |buf|
    ensures Overlay(Overlay(Overlay(Overlay(buf, 0, p), |p|, q), |p| + |q|, r), |p| + |q| + |r|, s)
      == Overlay(buf, 0, p + q + r + s)
  {
    OverlayTwice(buf, 0, p, q);
    OverlayTwice(buf, 0, p + q, r);
    OverlayTwice(buf, 0, p + q + r, s);
  }

  method PutFrontInto(b: array<byte>, r: Record) returns (at: nat)
    requires 24 + |r.contentKey| <= b.Length
    modifies b
    ensures Cursor(b[..], at) == PutFront(Cursor(old(b[..]), 0), r)
  {
    hide Prefixed, Overlay, FixedPart, Bytes16;
    at := PutFixedInto(b, r);
    at := Putb(b, at, r.contentKey);
    at := Put16(b, at, Low16(|r.xattrs|));
  }

  /** serialize: the two maps may be visited in any order, and in another order by each loop. */
  method Serialize(r: Record) returns (buf: bytes)
    ensures IsImage(buf, r)
  {
    hide PutEntries, PutFront, Sum, Total, Room;
    var size := SizeOf(r);
    var b := new byte[size](_ => 0);
    assert b[..] == Zeros(size);
    ghost var xs, cs;
    var at := PutFrontInto(b, r);
    at, xs := PutEntriesInto(b, at, r.xattrs);
    at, cs := PutEntriesInto(b, at, r.children);
    assert Cursor(b[..], at) == Fill(r, xs, cs);
    buf := b[..];
  }

  // ----- Reading -----

  function ParseAttrs(b: bytes, n: nat, xattrs: map<bytes, bytes>): (r: Checked<(map<bytes, bytes>, bytes)>)
    decreases n
  {
    if n == 0 then Fine((xattrs, b)) else
      var (attr, b) :- Getb(b);
      var (value, b) :- Getb(b);
      ParseAttrs(b, n - 1, xattrs[attr := value])
  }

  function ParseChildren(b: bytes, children: map<bytes, Key>): (r: Checked<map<bytes, Key>>)
    decreases |b|
  {
    if b == [] then Fine(children) else
      var (childName, b) :- Getb(b);
      var (childKey, b) :- Getb(b);
      ParseChildren(b, children[childName := ToKey(childKey)])
  }

  /** What a buffer says; Panic where unserialize would index outside of it. */
  function Parse(b: bytes): (r: Checked<Record>) {
    var (r, b) :- ParseFixedPart(b);
    ParseVariablePart(r, b)
  }

  function ParseFixedPart(b: bytes): Checked<(Record, bytes)> {
    var (user, b) :- Get32(b);
    var (group, b) :- Get32(b);
    var (mode, b) :- Get32(b);
    var (unixnano, b) :- Get64(b);
    Fine((Record(user, group, mode, Signed(unixnano), [], map[], map[]), b))
  }

  function ParseVariablePart(r: Record, b: bytes): Checked<Record> {
    var (contentKey, b) :- Getb(b);
    var (nxattr, b) :- Get16(b);
    var (xattrs, b) :- ParseAttrs(b, nxattr, map[]);
    var children :- ParseChildren(b, map[]);
    Fine(r.(contentKey := contentKey, xattrs := xattrs, children := children))
  }

  /** unserialize into a fresh node, whose Children map is nil unless the mode is a directory's. */
  function Restore(b: bytes): (r: Checked<Record>) {
    var r :- Parse(b);
    if r.children != map[] && !IsDirectory(r.mode) then Panic else Fine(r)
  }

  /** The counted loop of unserialize. */
  method UnserializeAttrs(buf: bytes, nxattr: uint16) returns (r: Checked<(map<bytes, bytes>, bytes)>)
    ensures r == ParseAttrs(buf, nxattr, map[])
  {
    hide Getb;
    var b, left := buf, nxattr;
    var xattrs: map<bytes, bytes> := map[];
    while left > 0
      invariant ParseAttrs(b, left, xattrs) == ParseAttrs(buf, nxattr, map[])
    {
      var attr :- Getb(b);
      var value :- Getb(attr.1);
      xattrs, b, left := xattrs[attr.0 := value.0], value.1, left - 1;
    }
    r := Fine((xattrs, b));
  }

  /** The loop of unserialize that runs until the buffer is used up. */
  method UnserializeChildren(buf: bytes) returns (r: Checked<map<bytes, Key>>)
    ensures r == ParseChildren(buf, map[])
  {
    hide Getb;
    var b := buf;
    var children: map<bytes, Key> := map[];
    while |b| > 0
      invariant ParseChildren(b, children) == ParseChildren(buf, map[])
      decreases |b|
    {
      var childName :- Getb(b);
      var childKey :- Getb(childName.1);
      children, b := children[childName.0 := ToKey(childKey.0)], childKey.1;
    }
    r := Fine(children);
  }

  method Unserialize(buf: bytes) returns (r: Checked<Record>)
    ensures r == Parse(buf)
  {
    hide Getb, Get16, Get32, Get64, ParseAttrs, ParseChildren;
    var user :- Get32(buf);
    var group :- Get32(user.1);
    var mode :- Get32(group.1);
    var unixnano :- Get64(mode.1);
    var contentKey :- Getb(unixnano.1);
    var nxattr :- Get16(contentKey.1);
    var xattrs :- UnserializeAttrs(nxattr.1, nxattr.0);
    var children :- UnserializeChildren(xattrs.1);
    r := Fine(Record(user.0, group.0, mode.0, Signed(unixnano.0), contentKey.0, xattrs.0, children));
  }

  // ----- The round trip -----

  predicate EntriesFit(m: map<bytes, bytes>) {
    forall x :: x in m ==> |x| <= MAX_UINT16 && |m[x]| <= MAX_UINT16
  }

  predicate StringsFit(r: Record) {
    |r.contentKey| <= MAX_UINT16 && EntriesFit(r.xattrs) && EntriesFit(r.children)
  }

  predicate Fits(r: Record) {
    StringsFit(r) && |r.xattrs| <= MAX_UINT16
  }

  function EntryBytes(m: map<bytes, bytes>, xs: seq<bytes>): bytes
    requires forall x :: x in xs ==> x in m
  {
    if xs == [] then [] else
      var last := xs[|xs| - 1];
      assert last in xs;
      EntryBytes(m, xs[..|xs| - 1]) + (Prefix16(last) + Prefix16(m[last]))
  }

  /** From c to d exactly w was put. */
  ghost predicate Wrote(c: Cursor, d: Cursor, w: bytes) {
    && c.at <= |c.buf| == |d.buf|
    && d.at == c.at + |w| <= |d.buf|
    && d.buf[..d.at] == c.buf[..c.at] + w
  }

  lemma WroteTwice(c: Cursor, d: Cursor, e: Cursor, v: bytes, w: bytes)
    requires Wrote(c, d, v) && Wrote(d, e, w)
    ensures Wrote(c, e, v + w)
  {
  }

  lemma PutRawWrote(c: Cursor, p: bytes)
    requires c.at + |p| <= |c.buf|
    ensures Wrote(c, PutRaw(c, p), p)
  {
  }

  lemma PutStringWrote(c: Cursor, v: bytes)
    requires c.at + 2 + |v| <= |c.buf| && |v| <= MAX_UINT16
    ensures Wrote(c, PutString(c, v), Prefix16(v))
  {
  }

  lemma PutPairWrote(c: Cursor, v: bytes, w: bytes)
    requires c.at + 4 + |v| + |w| <= |c.buf| && |v| <= MAX_UINT16 && |w| <= MAX_UINT16
    ensures Wrote(c, PutString(PutString(c, v), w), Prefix16(v) + Prefix16(w))
  {
    PutStringWrote(c, v);
    PutStringWrote(PutString(c, v), w);
    WroteTwice(c, PutString(c, v), PutString(PutString(c, v), w), Prefix16(v), Prefix16(w));
  }

  lemma {:induction false} PutEntriesWrote(c: Cursor, m: map<bytes, bytes>, xs: seq<bytes>)
    requires forall x :: x in xs ==> x in m
    requires EntriesFit(m)
    requires c.at + Sum(Room(m), xs) <= |c.buf|
    ensures Wrote(c, PutEntries(c, m, xs), EntryBytes(m, xs))
  {
    if xs != [] {
      var less, last := xs[..|xs| - 1], xs[|xs| - 1];
      assert last in xs;
      var d := PutEntries(c, m, less);
      PutEntriesWrote(c, m, less);
      PutPairWrote(d, last, m[last]);
      WroteTwice(c, d, PutEntries(c, m, xs), EntryBytes(m, less), Prefix16(last) + Prefix16(m[last]));
    }
  }

  function Front(r: Record): bytes {
    FixedPart(r) + Prefix16(r.contentKey) + Bytes16(Low16(|r.xattrs|))
  }

  lemma PutFrontWrote(c: Cursor, r: Record)
    requires c.at + 24 + |r.contentKey| <= |c.buf| && |r.contentKey| <= MAX_UINT16
    ensures Wrote(c, PutFront(c, r), Front(r))
  {
    var c1 := PutRaw(c, FixedPart(r));
    var c2 := PutString(c1, r.contentKey);
    var count := Bytes16(Low16(|r.xattrs|));
    PutRawWrote(c, FixedPart(r));
    PutStringWrote(c1, r.contentKey);
    WroteTwice(c, c1, c2, FixedPart(r), Prefix16(r.contentKey));
    PutRawWrote(c2, count);
    WroteTwice(c, c2, PutRaw(c2, count), FixedPart(r) + Prefix16(r.contentKey), count);
  }

  /** The plain concatenation that a record amounts to when every length fits. */
  function Layout(r: Record, xs: seq<bytes>, cs: seq<bytes>): bytes
    requires forall x :: x in xs ==> x in r.xattrs
    requires forall x :: x in cs ==> x in r.children
  {
    Front(r) + EntryBytes(r.xattrs, xs) + EntryBytes(r.children, cs)
  }

  lemma FillIsLayout(r: Record, xs: seq<bytes>, cs: seq<bytes>)
    requires forall x :: x in xs ==> x in r.xattrs
    requires forall x :: x in cs ==> x in r.children
    requires StringsFit(r)
    ensures Fill(r, xs, cs) == Cursor(Layout(r, xs, cs), SizeFor(r, xs, cs))
  {
    var c0 := Cursor(Zeros(SizeFor(r, xs, cs)), 0);
    var c1 := PutFront(c0, r);
    var c2 := PutEntries(c1, r.xattrs, xs);
    var c3 := PutEntries(c2, r.children, cs);
    var attrs, kids := EntryBytes(r.xattrs, xs), EntryBytes(r.children, cs);
    PutFrontWrote(c0, r);
    PutEntriesWrote(c1, r.xattrs, xs);
    WroteTwice(c0, c1, c2, Front(r), attrs);
    PutEntriesWrote(c2, r.children, cs);
    WroteTwice(c0, c2, c3, Front(r) + attrs, kids);
    EntryBytesSize(r.xattrs, xs);
    EntryBytesSize(r.children, cs);
    WroteAll(c0, c3, Layout(r, xs, cs));
  }

  lemma WroteAll(c: Cursor, d: Cursor, w: bytes)
    requires Wrote(c, d, w) && c.at == 0 && |w| == |c.buf|
    ensures d == Cursor(w, |w|)
  {
    assert d.buf[..d.at] == d.buf;
  }

  lemma {:induction false} EntryBytesSize(m: map<bytes, bytes>, xs: seq<bytes>)
    requires forall x :: x in xs ==> x in m
    ensures |EntryBytes(m, xs)| == Sum(Room(m), xs)
  {
    if xs != [] {
      assert xs[|xs| - 1] in xs;
      EntryBytesSize(m, xs[..|xs| - 1]);
    }
  }

  function With<V>(acc: map<bytes, V>, m: map<bytes, V>, xs: seq<bytes>): map<bytes, V>
    requires forall x :: x in xs ==> x in m
  {
    if xs == [] then acc else
      var last := xs[|xs| - 1];
      assert last in xs;
      With(acc, m, xs[..|xs| - 1])[last := m[last]]
  }

  lemma {:induction false} WithEveryKey<V>(m: map<bytes, V>, xs: seq<bytes>)
    requires forall x :: x in xs ==> x in m
    ensures forall x :: x in With(map[], m, xs) <==> x in xs
    ensures forall x :: x in xs ==> x in With(map[], m, xs) && With(map[], m, xs)[x] == m[x]
  {
    if xs != [] {
      var less, last := xs[..|xs| - 1], xs[|xs| - 1];
      assert xs == less + [last];
      assert last in xs;
      WithEveryKey(m, less);
    }
  }

  lemma WithEnumeration<V>(m: map<bytes, V>, xs: seq<bytes>)
    requires Enumerates(xs, m.Keys)
    ensures With(map[], m, xs) == m
  {
    WithEveryKey(m, xs);
    assert With(map[], m, xs).Keys == m.Keys;
  }

  lemma Regroup(a: bytes, b: bytes, c: bytes, d: bytes)
    ensures a + (b + c) + d == a + (b + (c + d))
  {
  }

  lemma {:induction false} ParseAttrsOfBytes(b: bytes, n: nat, xattrs: map<bytes, bytes>, xs: seq<bytes>, acc: map<bytes, bytes>, rest: bytes)
    requires forall x :: x in xs ==> x in xattrs
    requires EntriesFit(xattrs)
    requires b == EntryBytes(xattrs, xs) + rest && |xs| <= n
    ensures ParseAttrs(b, n, acc) == ParseAttrs(rest, n - |xs|, With(acc, xattrs, xs))
    decreases |xs|
  {
    hide ParseAttrs, Prefix16;
    if xs == [] {
      assert b == rest;
    } else {
      var less, last := xs[..|xs| - 1], xs[|xs| - 1];
      assert last in xs;
      var value := xattrs[last];
      Regroup(EntryBytes(xattrs, less), Prefix16(last), Prefix16(value), rest);
      ParseAttrsOfBytes(b, n, xattrs, less, acc, Prefix16(last) + (Prefix16(value) + rest));
      ParseOneAttr(last, value, rest, n - |less|, With(acc, xattrs, less));
    }
  }

  lemma ParseOneAttr(attr: bytes, value: bytes, rest: bytes, k: nat, acc: map<bytes, bytes>)
    requires |attr| <= MAX_UINT16 && |value| <= MAX_UINT16 && k > 0
    ensures ParseAttrs(Prefix16(attr) + (Prefix16(value) + rest), k, acc) == ParseAttrs(rest, k - 1, acc[attr := value])
  {
    hide Getb, Prefix16;
    GetbOfPrefixed(attr, Prefix16(value) + rest);
    GetbOfPrefixed(value, rest);
  }

  lemma ParseOneChild(childName: bytes, key: Key, rest: bytes, acc: map<bytes, Key>)
    requires |childName| <= MAX_UINT16
    ensures ParseChildren(Prefix16(childName) + (Prefix16(key) + rest), acc) == ParseChildren(rest, acc[childName := key])
  {
    hide Getb, Prefix16, ToKey;
    GetbOfPrefixed(childName, Prefix16(key) + rest);
    GetbOfPrefixed(key, rest);
    ToKeyOfKey(key);
  }

  lemma ToKeyOfKey(k: Key)
    ensures ToKey(k) == k
  {
  }

  lemma {:induction false} ParseChildrenOfBytes(b: bytes, children: map<bytes, Key>, cs: seq<bytes>, acc: map<bytes, Key>, rest: bytes)
    requires forall x :: x in cs ==> x in children
    requires EntriesFit(children)
    requires b == EntryBytes(children, cs) + rest
    ensures ParseChildren(b, acc) == ParseChildren(rest, With(acc, children, cs))
    decreases |cs|
  {
    hide ParseChildren, Prefix16;
    if cs == [] {
      assert b == rest;
    } else {
      var less, last := cs[..|cs| - 1], cs[|cs| - 1];
      assert last in cs;
      var key := children[last];
      Regroup(EntryBytes(children, less), Prefix16(last), Prefix16(key), rest);
      ParseChildrenOfBytes(b, children, less, acc, Prefix16(last) + (Prefix16(key) + rest));
      ParseOneChild(last, key, rest, With(acc, children, less));
    }
  }

  lemma Get32OfBytes(v: uint32, rest: bytes)
    ensures Get32(LittleEndian(v, 4) + rest) == Fine((v, rest))
  {
    WidthsOfMachineIntegers();
    GetOfLittleEndian(v, 4, rest);
  }

  lemma Get64OfBytes(v: uint64, rest: bytes)
    ensures Get64(LittleEndian(v, 8) + rest) == Fine((v, rest))
  {
    WidthsOfMachineIntegers();
    GetOfLittleEndian(v, 8, rest);
  }

  lemma ParseFixedOfParts(r: Record, b: bytes, tail: bytes)
    requires b == FixedPart(r) + tail
    ensures ParseFixedPart(b) == Fine((r.(contentKey := [], xattrs := map[], children := map[]), tail))
  {
    var t4 := LittleEndian(Unsigned(r.nanos), 8) + tail;
    var t3 := LittleEndian(r.mode, 4) + t4;
    var t2 := LittleEndian(r.group, 4) + t3;
    assert b == LittleEndian(r.user, 4) + t2;
    Get32OfBytes(r.user, t2);
    Get32OfBytes(r.group, t3);
    Get32OfBytes(r.mode, t4);
    Get64OfBytes(Unsigned(r.nanos), tail);
  }

  lemma ParseOfParts(r: Record, tail: bytes)
    requires |r.contentKey| <= MAX_UINT16 && |r.xattrs| <= MAX_UINT16
    ensures Parse(Front(r) + tail) ==
      var (xattrs, b) :- ParseAttrs(tail, |r.xattrs|, map[]);
      var children :- ParseChildren(b, map[]);
      Fine(r.(xattrs := xattrs, children := children))
  {
    hide ParseAttrs, ParseChildren, ParseFixedPart, ParseVariablePart, Prefix16, Bytes16, FixedPart;
    var rest := Prefix16(r.contentKey) + Bytes16(|r.xattrs|) + tail;
    assert Front(r) + tail == FixedPart(r) + rest;
    ParseFixedOfParts(r, Front(r) + tail, rest);
    ParseVariableOfParts(r.(contentKey := [], xattrs := map[], children := map[]), r.contentKey, |r.xattrs|, tail);
  }

  lemma ParseVariableOfParts(r: Record, contentKey: bytes, n: uint16, tail: bytes)
    requires |contentKey| <= MAX_UINT16
    ensures ParseVariablePart(r, Prefix16(contentKey) + Bytes16(n) + tail) ==
      var (xattrs, b) :- ParseAttrs(tail, n, map[]);
      var children :- ParseChildren(b, map[]);
      Fine(r.(contentKey := contentKey, xattrs := xattrs, children := children))
  {
    assert Prefix16(contentKey) + Bytes16(n) + tail == Prefix16(contentKey) + (Bytes16(n) + tail);
    GetbOfPrefixed(contentKey, Bytes16(n) + tail);
    Get16OfBytes(n, tail);
  }

  lemma NoAttrsParse(b: bytes, xattrs: map<bytes, bytes>)
    ensures ParseAttrs(b, 0, xattrs) == Fine((xattrs, b))
  {
  }

  lemma EmptyParse(children: map<bytes, Key>)
    ensures ParseChildren([], children) == Fine(children)
  {
  }

  lemma ParseOfLayout(r: Record, xs: seq<bytes>, cs: seq<bytes>)
    requires Enumerates(xs, r.xattrs.Keys) && Enumerates(cs, r.children.Keys) && Fits(r)
    ensures Parse(Layout(r, xs, cs)) == Fine(r)
  {
    hide ParseAttrs, ParseChildren, Parse, EntryBytes, Front;
    var attrs, kids := EntryBytes(r.xattrs, xs), EntryBytes(r.children, cs);
    assert Layout(r, xs, cs) == Front(r) + (attrs + kids);
    ParseOfParts(r, attrs + kids);
    assert ParseAttrs(attrs + kids, |r.xattrs|, map[]) == Fine((r.xattrs, kids)) by {
      EnumerationSize(xs, r.xattrs.Keys);
      ParseAttrsOfBytes(attrs + kids, |xs|, r.xattrs, xs, map[], kids);
      NoAttrsParse(kids, r.xattrs);
      WithEnumeration(r.xattrs, xs);
    }
    assert ParseChildren(kids, map[]) == Fine(r.children) by {
      ParseChildrenOfBytes(kids, r.children, cs, map[], []);
      EmptyParse(r.children);
      WithEnumeration(r.children, cs);
    }
  }

  // What Parse yields has 16-bit lengths, whatever it was given.

  lemma AtMostOneMore(m: map<bytes, bytes>, k: bytes, v: bytes)
    ensures |m[k := v]| <= |m| + 1
  {
    assert m[k := v].Keys == m.Keys + {k};
  }

  lemma {:induction false} ParsedAttrsFit(b: bytes, n: nat, acc: map<bytes, bytes>)
    requires EntriesFit(acc)
    ensures ParseAttrs(b, n, acc).Fine? ==>
      var xattrs := ParseAttrs(b, n, acc).value.0; |xattrs| <= |acc| + n && EntriesFit(xattrs)
    decreases n
  {
    hide Getb;
    if n > 0 && Getb(b).Fine? {
      var (attr, c) := Getb(b).value;
      if Getb(c).Fine? {
        var (value, d) := Getb(c).value;
        var more := acc[attr := value];
        assert ParseAttrs(b, n, acc) == ParseAttrs(d, n - 1, more);
        AtMostOneMore(acc, attr, value);
        ParsedAttrsFit(d, n - 1, more);
      }
    }
  }

  lemma {:induction false} ParsedChildrenFit(b: bytes, acc: map<bytes, Key>)
    requires EntriesFit(acc)
    ensures ParseChildren(b, acc).Fine? ==> EntriesFit(ParseChildren(b, acc).value)
    decreases |b|
  {
    hide Getb;
    if b != [] && Getb(b).Fine? {
      var (childName, c) := Getb(b).value;
      if Getb(c).Fine? {
        var (childKey, d) := Getb(c).value;
        ParsedChildrenFit(d, acc[childName := ToKey(childKey)]);
      }
    }
  }

  lemma ParsedVariablePartFits(r: Record, b: bytes)
    ensures ParseVariablePart(r, b).Fine? ==> Fits(ParseVariablePart(r, b).value)
  {
    hide Getb, Get16, ParseAttrs, ParseChildren;
    if ParseVariablePart(r, b).Fine? {
      var (_, b5) := Getb(b).value;
      var (n, b6) := Get16(b5).value;
      ParsedAttrsFit(b6, n, map[]);
      ParsedChildrenFit(ParseAttrs(b6, n, map[]).value.1, map[]);
    }
  }

  lemma ParsedFits(b: bytes)
    ensures Parse(b).Fine? ==> Fits(Parse(b).value)
  {
    hide ParseFixedPart, ParseVariablePart;
    if ParseFixedPart(b).Fine? {
      var (r, rest) := ParseFixedPart(b).value;
      ParsedVariablePartFits(r, rest);
    }
  }

  /** Where the fields of a record are in its stored form: user, group, mode and time in front, then the
      content key with its length, and the number of attributes. */
  lemma ImageFormat(r: Record, buf: bytes)
    requires IsImage(buf, r) && StringsFit(r)
    ensures var k := |r.contentKey|;
      && |buf| >= 24 + k
      && buf[..4] == LittleEndian(r.user, 4) && buf[4..8] == LittleEndian(r.group, 4) && buf[8..12] == LittleEndian(r.mode, 4)
      && buf[12..20] == LittleEndian(if r.nanos >= 0 then r.nanos else r.nanos + 0x1_0000_0000_0000_0000, 8)
      && buf[20..22] == LittleEndian(k, 2) && buf[22..22 + k] == r.contentKey
      && buf[22 + k..24 + k] == LittleEndian(|r.xattrs| % 0x1_0000, 2)
  {
    hide Fill, Layout, LittleEndian, Bytes16, FixedPart;
    var xs, cs :| Enumerates(xs, r.xattrs.Keys) && Enumerates(cs, r.children.Keys) && buf == Fill(r, xs, cs).buf;
    FillIsLayout(r, xs, cs);
    LayoutStarts(r, xs, cs);
    FixedPartFormat(r, buf);
    Bytes16IsLittleEndian(|r.contentKey|);
    Bytes16IsLittleEndian(Low16(|r.xattrs|));
  }

  lemma FixedPartFormat(r: Record, buf: bytes)
    requires |buf| >= 20 && buf[..20] == FixedPart(r)
    ensures buf[..4] == LittleEndian(r.user, 4) && buf[4..8] == LittleEndian(r.group, 4) && buf[8..12] == LittleEndian(r.mode, 4)
    ensures buf[12..20] == LittleEndian(if r.nanos >= 0 then r.nanos else r.nanos + 0x1_0000_0000_0000_0000, 8)
  {
    hide LittleEndian;
    var b := FixedPart(r);
    assert b[..4] == LittleEndian(r.user, 4) && b[4..8] == LittleEndian(r.group, 4) && b[8..12] == LittleEndian(r.mode, 4);
    assert buf[..4] == b[..4] && buf[4..8] == b[4..8] && buf[8..12] == b[8..12] && buf[12..20] == b[12..];
  }

  lemma LayoutStarts(r: Record, xs: seq<bytes>, cs: seq<bytes>)
    requires (forall x :: x in xs ==> x in r.xattrs) && forall x :: x in cs ==> x in r.children
    requires |r.contentKey| <= MAX_UINT16
    ensures var (b, k) := (Layout(r, xs, cs), |r.contentKey|);
      && |b| >= 24 + k && b[..20] == FixedPart(r)
      && b[20..22] == Bytes16(k) && b[22..22 + k] == r.contentKey && b[22 + k..24 + k] == Bytes16(Low16(|r.xattrs|))
  {
    hide EntryBytes, LittleEndian;
    var front, rest := FixedPart(r), EntryBytes(r.xattrs, xs) + EntryBytes(r.children, cs);
    var b, k := Layout(r, xs, cs), |r.contentKey|;
    assert b == front + (Bytes16(k) + r.contentKey + Bytes16(Low16(|r.xattrs|)) + rest);
    assert b[20..] == Bytes16(k) + r.contentKey + Bytes16(Low16(|r.xattrs|)) + rest;
  }

  /** A record that fits, but has children without being a directory, can be saved and not be loaded. */
  lemma FileWithChildrenPanics(r: Record, buf: bytes)
    requires IsImage(buf, r) && Fits(r) && r.children != map[] && !IsDirectory(r.mode)
    ensures Restore(buf) == Panic
  {
    hide Parse, Fill, Layout;
    var xs, cs :| Enumerates(xs, r.xattrs.Keys) && Enumerates(cs, r.children.Keys) && buf == Fill(r, xs, cs).buf;
    FillIsLayout(r, xs, cs);
    ParseOfLayout(r, xs, cs);
  }

  /** Whatever the two iteration orders, a fresh node gets back exactly what was serialized if and
      only if every length and the number of attributes fit in 16 bits and only directories have
      children. */
  lemma NodeRoundTrip(r: Record, buf: bytes)
    requires IsImage(buf, r)
    ensures Restore(buf) == Fine(r) <==> Fits(r) && (r.children != map[] ==> IsDirectory(r.mode))
  {
    hide Parse, Fill, Layout;
    var xs, cs :| Enumerates(xs, r.xattrs.Keys) && Enumerates(cs, r.children.Keys) && buf == Fill(r, xs, cs).buf;
    if Fits(r) {
      FillIsLayout(r, xs, cs);
      ParseOfLayout(r, xs, cs);
    }
    ParsedFits(buf);
  }

  lemma PairExact(c: Cursor, v: bytes, w: bytes)
    requires c.at + 4 + |v| + |w| <= |c.buf|
    ensures PutString(PutString(c, v), w).at == c.at + 4 + |v| + |w| <==> |v| <= MAX_UINT16 && |w| <= MAX_UINT16
    ensures PutString(PutString(c, v), w).at <= c.at + 4 + |v| + |w|
  {
  }

  lemma {:induction false} EntriesExact(c: Cursor, m: map<bytes, bytes>, xs: seq<bytes>)
    requires forall x :: x in xs ==> x in m
    requires c.at + Sum(Room(m), xs) <= |c.buf|
    ensures PutEntries(c, m, xs).at == c.at + Sum(Room(m), xs)
      <==> forall x :: x in xs ==> |x| <= MAX_UINT16 && |m[x]| <= MAX_UINT16
  {
    if xs != [] {
      var less, last := xs[..|xs| - 1], xs[|xs| - 1];
      assert xs == less + [last];
      assert last in xs;
      EntriesExact(c, m, less);
      hide PutString;
      PairExact(PutEntries(c, m, less), last, m[last]);
    }
  }

  lemma FrontExact(c: Cursor, r: Record)
    requires c.at + 24 + |r.contentKey| <= |c.buf|
    ensures PutFront(c, r).at == c.at + 24 + |r.contentKey| <==> |r.contentKey| <= MAX_UINT16
  {
  }

  /** The precomputed size is filled exactly if and only if every string fits in 16 bits. */
  lemma SizeIsExact(r: Record, xs: seq<bytes>, cs: seq<bytes>)
    requires Enumerates(xs, r.xattrs.Keys) && Enumerates(cs, r.children.Keys)
    ensures Fill(r, xs, cs).at == |Fill(r, xs, cs).buf| <==> StringsFit(r)
  {
    hide PutEntries, PutFront, Zeros, Sum, Room;
    var start := Cursor(Zeros(SizeFor(r, xs, cs)), 0);
    var c := PutFront(start, r);
    FrontExact(start, r);
    EntriesExact(c, r.xattrs, xs);
    EntriesExact(PutEntries(c, r.xattrs, xs), r.children, cs);
    assert (forall x :: x in xs ==> |x| <= MAX_UINT16 && |r.xattrs[x]| <= MAX_UINT16) <==> EntriesFit(r.xattrs);
    assert (forall x :: x in cs ==> |x| <= MAX_UINT16) <==> EntriesFit(r.children);
  }
}
