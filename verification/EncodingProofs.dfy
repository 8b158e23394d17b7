/** What the encoder writes and what the decoder makes of it: the round trip of whole streams, and
    the bounds the decoder's buffer keeps on any stream. */
module EncodingProofs {
  import opened Types
  import opened Bits
  import opened Messages
  import opened Encoding

  // ----- A successful read -----

  lemma ReadFront(d: Reading, front: bytes, tail: bytes, more: Chunks)
    requires d.off <= |d.buf| && !d.failed && |front| <= MAX_UINT16
    requires d.stream == [front + tail] + more
    ensures var e := Read(d, |front|);
      !e.failed && e.off == 0 && e.stream == [tail] + more && |front| <= |e.buf| && e.buf[..|front|] == front
  {
    if front == [] {
      assert front + tail == tail;
    } else {
      assert (front + tail)[..|front|] == front && (front + tail)[|front|..] == tail;
      assert d.stream[1..] == more;
    }
  }

  /** The unread bytes of the buffer start with p. */
  ghost predicate Ahead(d: Reading, p: bytes) {
    d.off + |p| <= |d.buf| && d.buf[d.off..d.off + |p|] == p
  }

  lemma TakeAhead(d: Reading, p: bytes, q: bytes)
    requires Ahead(d, p + q)
    ensures Take(d, |p|) == Fine((p, d.(off := d.off + |p|))) && Ahead(d.(off := d.off + |p|), q)
  {
    var w := d.buf[d.off..d.off + |p + q|];
    assert w[..|p|] == p && w[|p|..] == q;
    assert d.buf[d.off..d.off + |p|] == w[..|p|];
    assert d.buf[d.off + |p|..d.off + |p| + |q|] == w[|p|..];
  }

  lemma Take16Ahead(d: Reading, n: uint16, q: bytes)
    requires Ahead(d, Bytes16(n) + q)
    ensures Take16(d) == Fine((n, d.(off := d.off + 2))) && Ahead(d.(off := d.off + 2), q)
  {
    TakeAhead(d, Bytes16(n), q);
    Get16OfBytes(n, []);
    assert Bytes16(n) + [] == Bytes16(n);
  }

  lemma DecodeHeadOf(d: Reading, kind: byte, tag: uint16, n: uint16, tail: bytes, more: Chunks)
    requires d.off <= |d.buf| && kind <= KIND_AUTH
    requires d.stream == [[kind] + Bytes16(tag) + Bytes16(n) + tail] + more
    ensures var (head, e) := DecodeHead(d);
      head == Head(kind, tag, n) && !e.failed && e.off == 5 && e.stream == [tail] + more
  {
    var front := [kind] + Bytes16(tag) + Bytes16(n);
    ReadFront(d.(failed := false), front, tail, more);
    var e := Read(d.(failed := false), 5);
    assert front == [kind] + (Bytes16(tag) + Bytes16(n)) && Bytes16(n) == Bytes16(n) + [];
    assert Ahead(e, [kind] + (Bytes16(tag) + (Bytes16(n) + [])));
    hide Bytes16, Read;
    TakeAhead(e, [kind], Bytes16(tag) + (Bytes16(n) + []));
    Take16Ahead(e.(off := 1), tag, Bytes16(n) + []);
    Take16Ahead(e.(off := 3), n, []);
  }

  lemma ReadStringOf(d: Reading, v: bytes, tail: bytes, more: Chunks)
    requires d.off <= |d.buf| && !d.failed && |v| <= MAX_UINT16
    requires d.stream == [v + tail] + more
    ensures var (w, e) := Take(Read(d, |v|), |v|).value;
      w == v && !e.failed && e.stream == [tail] + more
  {
    ReadFront(d, v, tail, more);
  }

  lemma DecodePutKeyOf(d: Reading, key: bytes, n: uint16, tail: bytes, more: Chunks)
    requires d.off <= |d.buf| && !d.failed && |key| <= MAX_UINT16 - 2
    requires d.stream == [key + Bytes16(n) + tail] + more
    ensures var r := DecodePutKey(d, |key|);
      r.Fine? && r.value.0 == key && r.value.1 == n && !r.value.2.failed && r.value.2.stream == [tail] + more
  {
    hide Read, Bytes16;
    ReadFront(d, key + Bytes16(n), tail, more);
    var e := Read(d, |key| + 2);
    assert Bytes16(n) == Bytes16(n) + [];
    assert Ahead(e, key + (Bytes16(n) + []));
    TakeAhead(e, key, Bytes16(n) + []);
    Take16Ahead(e.(off := |key|), n, []);
  }

  lemma DecodePutValueOf(d: Reading, value: bytes, version: uint64, tail: bytes, more: Chunks)
    requires d.off <= |d.buf| && !d.failed && |value| <= MAX_UINT16 - 8
    requires d.stream == [value + LittleEndian(version, 8) + tail] + more
    ensures var r := DecodePutValue(d, |value|);
      r.Fine? && r.value.0 == value && r.value.1 == version && !r.value.2.failed && r.value.2.stream == [tail] + more
  {
    hide LittleEndian;
    var last := LittleEndian(version, 8);
    ReadFront(d, value + last, tail, more);
    var e := Read(d, |value| + 8);
    hide Read;
    assert last == last + [];
    assert Ahead(e, value + (last + []));
    TakeAhead(e, value, last + []);
    TakeAhead(e.(off := |value|), last, []);
    WidthsOfMachineIntegers();
    GetOfLittleEndian(version, 8, []);
  }

  // ----- The round trip -----

  /** The lengths that the 16-bit arithmetic of the codec can carry. */
  predicate Fits(m: Message) {
    if m.kind == KIND_GET then |m.key| <= MAX_UINT16
    else if m.kind == KIND_PUT then |m.key| <= MAX_UINT16 - 2 && |m.value| <= MAX_UINT16 - 8
    else |m.value| <= MAX_UINT16
  }

  /** d, reading b followed by rest from its current chunk, decodes m and leaves exactly rest. */
  ghost predicate DecodesTo(d: Reading, m: Message, rest: bytes, more: Chunks)
    requires d.off <= |d.buf|
  {
    var r := Decode(d, NO_MESSAGE);
    r.Fine? && r.value.0 == m && !r.value.1.failed && r.value.1.stream == [rest] + more
  }

  lemma DecodeGetOrText(d: Reading, m: Message, v: bytes, rest: bytes, more: Chunks)
    requires d.off <= |d.buf| && m.Canonical() && m.kind != KIND_PUT
    requires v == (if m.kind == KIND_GET then m.key else m.value) && |v| <= MAX_UINT16
    requires d.stream == [Encoded(m) + rest] + more
    ensures DecodesTo(d, m, rest, more)
  {
    hide DecodeHead, Read, Bytes16;
    assert Encoded(m) + rest == [m.kind] + Bytes16(m.tag) + Bytes16(|v|) + (v + rest);
    DecodeHeadOf(d, m.kind, m.tag, |v|, v + rest, more);
    ReadStringOf(DecodeHead(d).1, v, rest, more);
  }

  lemma DecodePut(d: Reading, m: Message, rest: bytes, more: Chunks)
    requires d.off <= |d.buf| && m.Canonical() && m.kind == KIND_PUT && Fits(m)
    requires d.stream == [Encoded(m) + rest] + more
    ensures DecodesTo(d, m, rest, more)
  {
    hide LittleEndian;
    var last := LittleEndian(m.version, 8) + rest;
    var tail := m.key + Bytes16(|m.value|) + (m.value + last);
    assert m.value + last == m.value + LittleEndian(m.version, 8) + rest;
    assert Encoded(m) + rest == [m.kind] + Bytes16(m.tag) + Bytes16(|m.key|) + tail;
    DecodeHeadOf(d, m.kind, m.tag, |m.key|, tail, more);
    hide DecodeHead, Read, Bytes16, DecodePutKey, DecodePutValue, Take;
    var e := DecodeHead(d).1;
    DecodePutKeyOf(e, m.key, |m.value|, m.value + last, more);
    DecodePutValueOf(DecodePutKey(e, |m.key|).value.2, m.value, m.version, rest, more);
  }

  // ----- What a successful Decode consumed -----

  /** Between s and t exactly n bytes of the first chunk were used. */
  ghost predicate Drops(s: Chunks, t: Chunks, n: nat) {
    if s == [] then n == 0 && t == [] else n <= |s[0]| && t == [s[0][n..]] + s[1..]
  }

  lemma DropsTwice(s: Chunks, t: Chunks, u: Chunks, n: nat, k: nat)
    requires Drops(s, t, n) && Drops(t, u, k)
    ensures Drops(s, u, n + k)
  {
    if s != [] {
      assert t[0] == s[0][n..] && t[1..] == s[1..];
      assert s[0][n..][k..] == s[0][n + k..];
    }
  }

  lemma ReadDrops(d: Reading, n: uint16)
    requires d.off <= |d.buf| && !Read(d, n).failed
    ensures !d.failed && Drops(d.stream, Read(d, n).stream, n)
  {
    if n == 0 && d.stream != [] {
      assert d.stream[0][0..] == d.stream[0];
      assert d.stream == [d.stream[0]] + d.stream[1..];
    }
  }

  /** r has 16-bit lengths, and the fields that its kind does not use are those of m. */
  predicate AsAnnounced(r: Message, m: Message) {
    && (r.kind == KIND_GET ==> |r.key| <= MAX_UINT16 && r.value == m.value && r.version == m.version)
    && (r.kind == KIND_PUT ==> |r.key| <= MAX_UINT16 && |r.value| <= MAX_UINT16)
    && (r.kind == KIND_AUTH || r.kind == KIND_ERROR ==> |r.value| <= MAX_UINT16 && r.key == m.key && r.version == m.version)
  }

  /** How much of the stream the decoder takes for the body of r: a Put message asks for n + 2 and
      n + 8 bytes, cut down to 16 bits. */
  function BodyDemand(r: Message): nat {
    if r.kind == KIND_GET then |r.key|
    else if r.kind == KIND_PUT then Low16(|r.key| + 2) + Low16(|r.value| + 8)
    else |r.value|
  }

  function Demand(r: Message): nat { 5 + BodyDemand(r) }

  lemma PutBodyDrops(d: Reading, head: Head, m: Message)
    requires d.off <= |d.buf| && head.kind == KIND_PUT && m.kind == head.kind
    requires DecodeBody(d, head, m).Fine? && !DecodeBody(d, head, m).value.1.failed
    ensures var (r, e) := DecodeBody(d, head, m).value;
      !d.failed && r.kind == head.kind && AsAnnounced(r, m) && Drops(d.stream, e.stream, BodyDemand(r))
  {
    hide Read, Take, Take16, Drops;
    var n: int := head.n;
    var e := DecodeBody(d, head, m).value.1;
    var (_, l, d') := DecodePutKey(d, head.n).value;
    var v, w := Low16(n + 2), Low16(l as int + 8);
    ReadDrops(d', w);
    ReadDrops(d, v);
    DropsTwice(d.stream, d'.stream, e.stream, v, w);
  }

  lemma TextBodyDrops(d: Reading, head: Head, m: Message)
    requires d.off <= |d.buf| && head.kind <= KIND_AUTH && head.kind != KIND_PUT && m.kind == head.kind
    requires DecodeBody(d, head, m).Fine? && !DecodeBody(d, head, m).value.1.failed
    ensures var (r, e) := DecodeBody(d, head, m).value;
      !d.failed && r.kind == head.kind && AsAnnounced(r, m) && Drops(d.stream, e.stream, BodyDemand(r))
  {
    hide Read, Take, Drops;
    ReadDrops(d, head.n);
  }

  lemma HeadDrops(d: Reading)
    requires d.off <= |d.buf| && !DecodeHead(d).1.failed
    ensures Drops(d.stream, DecodeHead(d).1.stream, 5)
  {
    hide Read, Take, Take16, Drops;
    ReadDrops(d.(failed := false), 5);
  }

  /** Strings come out at the lengths that were announced, and what was consumed follows from them. */
  lemma DecodeDrops(d: Reading, m: Message)
    requires d.off <= |d.buf| && Decode(d, m).Fine? && !Decode(d, m).value.1.failed
    ensures var (r, e) := Decode(d, m).value;
      r.kind <= KIND_AUTH ==> AsAnnounced(r, m) && Drops(d.stream, e.stream, Demand(r))
  {
    var (r, e) := Decode(d, m).value;
    var (head, d') := DecodeHead(d);
    var body := m.(kind := head.kind, tag := head.tag);
    assert Fine((r, e)) == DecodeBody(d', head, body);
    if head.kind <= KIND_AUTH {
      hide Decode, DecodeHead, DecodeBody, Drops, BodyDemand;
      if head.kind == KIND_PUT {
        PutBodyDrops(d', head, body);
      } else {
        TextBodyDrops(d', head, body);
      }
      HeadDrops(d);
      DropsTwice(d.stream, d'.stream, e.stream, 5, BodyDemand(r));
    }
  }

  lemma DropsExactly(front: bytes, rest: bytes, more: Chunks, n: nat)
    requires Drops([front + rest] + more, [rest] + more, n)
    ensures n == |front|
  {
    assert ([rest] + more)[0] == rest;
  }

  lemma EncodedSize(m: Message)
    requires m.kind <= KIND_AUTH
    ensures |Encoded(m)| ==
      if m.kind == KIND_GET then 5 + |m.key|
      else if m.kind == KIND_PUT then 15 + |m.key| + |m.value|
      else 5 + |m.value|
  {
  }

  /** The decoder never asks for more than the encoder wrote, and for as much only if the lengths fit. */
  lemma DemandIsEnough(m: Message)
    requires m.kind <= KIND_AUTH && AsAnnounced(m, NO_MESSAGE)
    ensures m.Canonical() && Demand(m) <= |Encoded(m)|
    ensures Demand(m) == |Encoded(m)| ==> Fits(m)
  {
    EncodedSize(m);
  }

  /** One decoder and any leftover state: a message comes back as it was, and exactly its bytes are
      consumed, if and only if its unused fields are zero and its lengths fit. */
  lemma MessageRoundTrip(d: Reading, m: Message, rest: bytes, more: Chunks)
    requires d.off <= |d.buf| && m.kind <= KIND_AUTH
    requires d.stream == [Encoded(m) + rest] + more
    ensures DecodesTo(d, m, rest, more) <==> m.Canonical() && Fits(m)
  {
    hide Encoded, Decode, Drops;
    if m.Canonical() && Fits(m) {
      if m.kind == KIND_PUT {
        DecodePut(d, m, rest, more);
      } else {
        DecodeGetOrText(d, m, if m.kind == KIND_GET then m.key else m.value, rest, more);
      }
    }
    if DecodesTo(d, m, rest, more) {
      DecodeDrops(d, NO_MESSAGE);
      DropsExactly(Encoded(m), rest, more, Demand(m));
      DemandIsEnough(m);
    }
  }

  // ----- Whole streams -----

  function EncodedAll(ms: seq<Message>): bytes {
    if ms == [] then [] else Encoded(ms[0]) + EncodedAll(ms[1..])
  }

  /** What n calls of Decode in a row yield, and where they leave the decoder; None if any fails. */
  datatype Decoded = Decoded(ms: seq<Message>, d: Reading)

  function DecodeMany(d: Reading, n: nat): Option<Decoded>
    requires d.off <= |d.buf|
    decreases n
  {
    if n == 0 then Some(Decoded([], d)) else
      match DecodeOne(d)
      case None => None
      case Some(one) => Prepend(one.ms, DecodeMany(one.d, n - 1))
  }

  function Prepend(ms: seq<Message>, r: Option<Decoded>): Option<Decoded> {
    match r
    case None => None
    case Some(more) => Some(Decoded(ms + more.ms, more.d))
  }

  function DecodeOne(d: Reading): (r: Option<Decoded>)
    requires d.off <= |d.buf|
    ensures r.Some? ==> r.value.d.off <= |r.value.d.buf| && |r.value.ms| == 1
  {
    var r := Decode(d, NO_MESSAGE);
    if r.Panic? || r.value.1.failed then None else Some(Decoded([r.value.0], r.value.1))
  }

  ghost predicate DecodesAllTo(d: Reading, ms: seq<Message>, rest: bytes, more: Chunks)
    requires d.off <= |d.buf|
  {
    var r := DecodeMany(d, |ms|);
    r.Some? && r.value.ms == ms && r.value.d.stream == [rest] + more
  }

  predicate AllFit(ms: seq<Message>) {
    forall i :: 0 <= i < |ms| ==> ms[i].Canonical() && Fits(ms[i])
  }

  predicate AllKnown(ms: seq<Message>) {
    forall i :: 0 <= i < |ms| ==> ms[i].kind <= KIND_AUTH
  }

  predicate AllAnnounced(ms: seq<Message>) {
    forall i :: 0 <= i < |ms| ==> AsAnnounced(ms[i], NO_MESSAGE)
  }

  lemma FittingOneDecodes(d: Reading, m: Message, rest: bytes, more: Chunks)
    requires d.off <= |d.buf| && d.stream == [Encoded(m) + rest] + more
    requires m.Canonical() && Fits(m)
    ensures var r := DecodeOne(d); r.Some? && r.value.ms == [m] && r.value.d.stream == [rest] + more
  {
    hide Decode, Encoded, Fits;
    MessageRoundTrip(d, m, rest, more);
  }

  lemma {:induction false} FittingStreamDecodes(d: Reading, ms: seq<Message>, rest: bytes, more: Chunks)
    requires d.off <= |d.buf| && d.stream == [EncodedAll(ms) + rest] + more
    requires AllFit(ms)
    ensures DecodesAllTo(d, ms, rest, more)
    decreases |ms|
  {
    hide DecodeOne, Encoded, EncodedAll, Fits;
    EncodedAllStep(ms, rest);
    if ms != [] {
      FittingOneDecodes(d, ms[0], EncodedAll(ms[1..]) + rest, more);
      FittingStreamDecodes(DecodeOne(d).value.d, ms[1..], rest, more);
      assert ms == [ms[0]] + ms[1..];
    }
  }

  lemma EncodedAllStep(ms: seq<Message>, rest: bytes)
    ensures EncodedAll(ms) + rest == if ms == [] then rest else Encoded(ms[0]) + (EncodedAll(ms[1..]) + rest)
  {
    hide Encoded;
  }

  function DemandAll(ms: seq<Message>): nat {
    if ms == [] then 0 else Demand(ms[0]) + DemandAll(ms[1..])
  }

  lemma DropsNothing(s: Chunks)
    ensures Drops(s, s, 0)
  {
    assert s != [] ==> s == [s[0][0..]] + s[1..];
  }

  lemma OneDrops(d: Reading, m: Message)
    requires d.off <= |d.buf| && DecodeOne(d).Some? && DecodeOne(d).value.ms[0] == m && m.kind <= KIND_AUTH
    ensures AsAnnounced(m, NO_MESSAGE) && Drops(d.stream, DecodeOne(d).value.d.stream, Demand(m))
  {
    hide Decode, Drops, Demand;
    DecodeDrops(d, NO_MESSAGE);
  }

  lemma {:induction false} ManyDrop(d: Reading, ms: seq<Message>, e: Reading)
    requires d.off <= |d.buf| && DecodeMany(d, |ms|) == Some(Decoded(ms, e)) && AllKnown(ms)
    ensures Drops(d.stream, e.stream, DemandAll(ms)) && AllAnnounced(ms)
    decreases |ms|
  {
    hide DecodeOne, Drops, Demand, AsAnnounced;
    if ms == [] {
      DropsNothing(d.stream);
    } else {
      var one := DecodeOne(d).value;
      assert one.ms == ms[..1];
      assert DecodeMany(one.d, |ms| - 1).value.ms == ms[1..];
      OneDrops(d, ms[0]);
      ManyDrop(one.d, ms[1..], e);
      DropsTwice(d.stream, one.d.stream, e.stream, Demand(ms[0]), DemandAll(ms[1..]));
    }
  }

  lemma {:induction false} DemandAllIsEnough(ms: seq<Message>)
    requires AllKnown(ms) && AllAnnounced(ms)
    ensures DemandAll(ms) <= |EncodedAll(ms)|
    ensures DemandAll(ms) == |EncodedAll(ms)| ==> AllFit(ms)
  {
    if ms != [] {
      hide Encoded, Demand, Fits;
      DemandIsEnough(ms[0]);
      DemandAllIsEnough(ms[1..]);
    }
  }

  /** A shared encoder and a shared decoder carry a sequence of messages, whatever either of them has
      left over and with every byte consumed, if and only if every single message fits. */
  lemma StreamRoundTrip(d: Reading, ms: seq<Message>, rest: bytes, more: Chunks)
    requires d.off <= |d.buf| && d.stream == [EncodedAll(ms) + rest] + more
    requires AllKnown(ms)
    ensures DecodesAllTo(d, ms, rest, more) <==> AllFit(ms)
  {
    if AllFit(ms) {
      FittingStreamDecodes(d, ms, rest, more);
    }
    if DecodesAllTo(d, ms, rest, more) {
      hide Drops, AllFit;
      ManyDrop(d, ms, DecodeMany(d, |ms|).value.d);
      DropsExactly(EncodedAll(ms), rest, more, DemandAll(ms));
      DemandAllIsEnough(ms);
    }
  }

  // ----- The decoder's buffer on arbitrary streams -----

  const MAX_OFF := 131075
  const MAX_BUF := 131080

  ghost predicate Bounded(d: Reading) {
    d.off <= |d.buf| <= MAX_BUF && d.off <= MAX_OFF
  }

  /** The two lengths of a Put message that Decode reads from its buffer do not wrap. */
  ghost predicate Narrow(d: Reading)
    requires d.off <= |d.buf|
  {
    var (head, d) := DecodeHead(d);
    head.kind == KIND_PUT ==>
      && head.n <= MAX_UINT16 - 2
      && (DecodePutKey(d, head.n).Fine? ==> DecodePutKey(d, head.n).value.1 <= MAX_UINT16 - 8)
  }

  lemma DecodeHeadBounds(d: Reading)
    requires Bounded(d)
    ensures |DecodeHead(d).1.buf| <= MAX_BUF
  {
  }

  lemma DecodePutKeyBounds(d: Reading, n: uint16)
    requires d.off == 5 <= |d.buf| <= MAX_BUF && n <= MAX_UINT16 - 2
    ensures var r := DecodePutKey(d, n);
      r.Fine? && r.value.2.off <= 5 + MAX_UINT16 && r.value.2.off <= |r.value.2.buf| <= MAX_BUF
  {
    hide Read, Take, Take16;
  }

  lemma DecodePutValueBounds(d: Reading, n: uint16)
    requires d.off <= 5 + MAX_UINT16 && d.off <= |d.buf| <= MAX_BUF && n <= MAX_UINT16 - 8
    ensures DecodePutValue(d, n).Fine? && Bounded(DecodePutValue(d, n).value.2)
  {
    hide Read, Take;
  }

  /** Whatever the stream holds, wherever it fails, and also in the reads that follow a failure, no
      slice is out of bounds and the buffer stays small. */
  lemma DecodeIsSafe(d: Reading, m: Message)
    requires Bounded(d) && Narrow(d)
    ensures Decode(d, m).Fine? && Bounded(Decode(d, m).value.1)
  {
    DecodeHeadBounds(d);
    hide DecodeHead, DecodePutKey, DecodePutValue, Read, Take;
    var (head, e) := DecodeHead(d);
    if head.kind == KIND_PUT {
      DecodePutKeyBounds(e, head.n);
      DecodePutValueBounds(DecodePutKey(e, head.n).value.2, DecodePutKey(e, head.n).value.1);
    }
  }

  // ----- Progress -----

  /** The bytes that a stream has left. */
  function Left(stream: Chunks): nat {
    if stream == [] then 0 else |stream[0]| + Left(stream[1..])
  }

  lemma ReadUses(d: Reading, n: uint16)
    requires d.off <= |d.buf|
    ensures Left(Read(d, n).stream) + (if Read(d, n).failed then 0 else n) <= Left(d.stream)
  {
    if !d.failed && n > 0 && d.stream != [] && n <= |d.stream[0]| {
      var left := [d.stream[0][n..]] + d.stream[1..];
      assert left[1..] == d.stream[1..];
    }
  }

  /** A successful Decode uses up at least five bytes, so the input loop of a connection ends. */
  lemma DecodeOneProgresses(d: Reading)
    requires d.off <= |d.buf| && DecodeOne(d).Some?
    ensures Left(DecodeOne(d).value.d.stream) + 5 <= Left(d.stream)
  {
    var (head, e) := DecodeHead(d);
    BodyUses(e, head, NO_MESSAGE.(kind := head.kind, tag := head.tag));
    HeadUses(d);
  }

  lemma HeadUses(d: Reading)
    requires d.off <= |d.buf|
    ensures Left(DecodeHead(d).1.stream) + (if DecodeHead(d).1.failed then 0 else 5) <= Left(d.stream)
  {
    hide Read, Take, Take16, Left;
    ReadUses(d.(failed := false), 5);
  }

  lemma BodyUses(d: Reading, head: Head, m: Message)
    requires d.off <= |d.buf| && DecodeBody(d, head, m).Fine?
    ensures Left(DecodeBody(d, head, m).value.1.stream) <= Left(d.stream)
    ensures d.failed ==> DecodeBody(d, head, m).value.1.failed
  {
    hide Read, Take, Take16, Left;
    if head.kind == KIND_PUT {
      var (_, n, e) := DecodePutKey(d, head.n).value;
      ReadUses(d, Low16(head.n as int + 2));
      ReadUses(e, Low16(n as int + 8));
    } else if head.kind <= KIND_AUTH {
      ReadUses(d, head.n);
    }
  }

  /** The decoder after one more message. */
  lemma {:induction false} DecodeManyThenOne(d: Reading, n: nat)
    requires d.off <= |d.buf| && DecodeMany(d, n).Some?
    ensures DecodeMany(d, n).value.d.off <= |DecodeMany(d, n).value.d.buf|
    ensures DecodeMany(d, n + 1) == match DecodeOne(DecodeMany(d, n).value.d)
      case None => None
      case Some(one) => Some(Decoded(DecodeMany(d, n).value.ms + one.ms, one.d))
    decreases n
  {
    hide DecodeOne;
    if n == 0 {
      match DecodeOne(d)
      case None =>
      case Some(one) => assert DecodeMany(one.d, 0) == Some(Decoded([], one.d)); assert one.ms + [] == one.ms == [] + one.ms;
    } else {
      var one := DecodeOne(d).value;
      DecodeManyThenOne(one.d, n - 1);
      var r := DecodeMany(one.d, n - 1).value;
      match DecodeOne(r.d)
      case None =>
      case Some(last) => assert one.ms + (r.ms + last.ms) == one.ms + r.ms + last.ms;
    }
  }

  /** A run of Decode calls; every call may find another stream in front of it. */
  function DecodeRun(d: Reading, streams: seq<Chunks>): (r: Checked<Reading>)
    requires d.off <= |d.buf|
    decreases |streams|
  {
    if streams == [] then Fine(d) else
      var (_, e) :- Decode(d.(stream := streams[0]), NO_MESSAGE);
      DecodeRun(e, streams[1..])
  }

  ghost predicate NarrowRun(d: Reading, streams: seq<Chunks>)
    requires d.off <= |d.buf|
    decreases |streams|
  {
    streams == [] ||
    var now := d.(stream := streams[0]);
    Narrow(now) && (Decode(now, NO_MESSAGE).Fine? ==> NarrowRun(Decode(now, NO_MESSAGE).value.1, streams[1..]))
  }

  lemma {:induction false} RunIsSafe(d: Reading, streams: seq<Chunks>)
    requires Bounded(d) && NarrowRun(d, streams)
    ensures DecodeRun(d, streams).Fine? && Bounded(DecodeRun(d, streams).value)
    decreases |streams|
  {
    if streams != [] {
      var now := d.(stream := streams[0]);
      DecodeIsSafe(now, NO_MESSAGE);
      hide Decode, Narrow;
      RunIsSafe(Decode(now, NO_MESSAGE).value.1, streams[1..]);
    }
  }

  /** A new decoder. */
  const FRESH := Reading([], 0, false, [])

  lemma FreshDecoderIsSafe(streams: seq<Chunks>)
    requires NarrowRun(FRESH, streams)
    ensures DecodeRun(FRESH, streams).Fine? && Bounded(DecodeRun(FRESH, streams).value)
  {
    RunIsSafe(FRESH, streams);
  }

  lemma FreshKeyPanics(d: Reading, n: uint16)
    requires d.off == |d.buf| == 5 && !d.failed && n > MAX_UINT16 - 2
    ensures DecodePutKey(d, n).Panic?
  {
    hide Read, Take, Take16;
  }

  lemma FreshKeySizes(d: Reading, n: uint16)
    requires d.off == |d.buf| == 5 && !d.failed && n <= MAX_UINT16 - 2 && DecodePutKey(d, n).Fine?
    ensures var e := DecodePutKey(d, n).value.2; |e.buf| == n + 7 && e.off == n + 2
  {
    hide Read, Take, Take16;
  }

  lemma FreshValuePanics(d: Reading, n: uint16, l: uint16)
    requires d.off == n + 2 && |d.buf| == n + 7 && n <= MAX_UINT16 - 2 && !d.failed
    ensures DecodePutValue(d, l).Panic? <==> l > MAX_UINT16 - 8 && n <= l
  {
    hide Read, Take;
  }

  /** Exactly when the first message makes a decoder run out of its buffer: if n + 2 wraps, and if
      l + 8 wraps and the key is not longer than the value. Behind a longer key the room made for that
      key hides the missing room, and the decoder goes on. */
  lemma FreshDecoderPanics(stream: Chunks, tag: uint16, n: uint16, key: bytes, l: uint16, tail: bytes, more: Chunks)
    requires n <= MAX_UINT16 - 2 ==> |key| == n
    requires stream == [[KIND_PUT] + Bytes16(tag) + Bytes16(n) + (key + Bytes16(l) + tail)] + more
    ensures Decode(FRESH.(stream := stream), NO_MESSAGE).Panic? <==>
      n > MAX_UINT16 - 2 || (l > MAX_UINT16 - 8 && n <= l)
  {
    var d := FRESH.(stream := stream);
    DecodeHeadOf(d, KIND_PUT, tag, n, key + Bytes16(l) + tail, more);
    var e := DecodeHead(d).1;
    assert |e.buf| == 5;
    hide DecodeHead, DecodePutKey, DecodePutValue, Bytes16;
    if n > MAX_UINT16 - 2 {
      FreshKeyPanics(e, n);
    } else {
      DecodePutKeyOf(e, key, l, tail, more);
      FreshKeySizes(e, n);
      FreshValuePanics(DecodePutKey(e, n).value.2, n, l);
    }
  }

  /** A string on the wire: its length, the low byte first, and its bytes. */
  function Counted(v: bytes): bytes {
    LittleEndian(|v|, 2) + v
  }

  lemma PrefixIsCounted(v: bytes)
    requires |v| <= MAX_UINT16
    ensures Prefix16(v) == Counted(v)
  {
    Bytes16IsLittleEndian(|v|);
  }

  /** What is on the wire: the kind, the tag, the strings that the kind has, and a put's version. */
  lemma WireFormat(m: Message)
    requires m.kind <= 3 && |m.key| <= MAX_UINT16 && |m.value| <= MAX_UINT16
    ensures Encoded(m) == [m.kind] + LittleEndian(m.tag, 2) +
      match m.kind
      case 0 => Counted(m.key)
      case 1 => Counted(m.key) + Counted(m.value) + LittleEndian(m.version, 8)
      case _ => Counted(m.value)
  {
    hide LittleEndian, Prefix16, Counted, Bytes16;
    Bytes16IsLittleEndian(m.tag);
    PrefixIsCounted(m.key);
    PrefixIsCounted(m.value);
  }
}
