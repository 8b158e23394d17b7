/** The stateful encoder and decoder of pkg/message/encoding.go: both keep a growing buffer and an
    offset from one message to the next. */
module Encoding {
  import opened Types
  import opened Bits
  import opened Messages

  datatype CodecError = BadMessage | WriteFailed | Underflow

  /** A writer that takes only so many more bytes; when it runs out it may or may not say so. */
  class Writer {
    var out: bytes
    var room: nat
    var silent: bool

    method Write(p: bytes) returns (n: nat, failed: bool)
      modifies this
      ensures n == Min(|p|, old(room)) && out == old(out) + Clip(p, old(room)) && room == old(room) - n
      ensures failed == (n < |p| && !silent) && silent == old(silent)
    {
      n := Min(|p|, room);
      out, room := out + p[..n], room - n;
      failed := n < |p| && !silent;
    }
  }

  /** As much of b as there is room for. */
  function Clip(b: bytes, room: nat): bytes { b[..Min(|b|, room)] }

  // ----- Encoding -----

  /** The wire form of a message of a known kind, whatever the lengths of its strings. */
  function Encoded(m: Message): (b: bytes)
    ensures m.kind <= KIND_AUTH ==> |b| >= 5
  {
    [m.kind] + Bytes16(m.tag) +
    if m.kind == KIND_GET then Prefix16(m.key)
    else if m.kind == KIND_PUT then Prefix16(m.key) + Prefix16(m.value) + LittleEndian(m.version, 8)
    else if m.kind == KIND_AUTH || m.kind == KIND_ERROR then Prefix16(m.value)
    else []
  }

  class Encoder {
    var buf: array<byte>
    var off: nat

    constructor ()
      ensures fresh(buf) && off == 0
    {
      buf := new byte[0];
      off := 0;
    }

    /** What has been encoded so far; behind it the buffer may hold anything. */
    ghost function Done(): bytes
      requires off <= buf.Length
      reads this, buf
    {
      buf[..off]
    }

    method Makeroom(required: nat)
      requires off <= buf.Length
      modifies this
      ensures buf == old(buf) || fresh(buf)
      ensures off == old(off) <= buf.Length && required <= buf.Length && Done() == old(Done())
    {
      if buf.Length >= required { return; }
      var larger := new byte[required](_ => 0);
      forall i | 0 <= i < buf.Length { larger[i] := buf[i]; }
      buf := larger;
    }

    method PutByte(v: byte)
      requires off + 1 <= buf.Length
      modifies this`off, buf
      ensures off == old(off) + 1 <= buf.Length && Done() == old(Done()) + [v]
    {
      var _ := Put8(buf, off, v);
      off := off + 1;
    }

    method PutUint16(v: uint16)
      requires off + 2 <= buf.Length
      modifies this`off, buf
      ensures off == old(off) + 2 <= buf.Length && Done() == old(Done()) + Bytes16(v)
    {
      var _ := Put16(buf, off, v);
      off := off + 2;
    }

    method PutUint64(v: uint64)
      requires off + 8 <= buf.Length
      modifies this`off, buf
      ensures off == old(off) + 8 <= buf.Length && Done() == old(Done()) + LittleEndian(v, 8)
    {
      hide LittleEndian;
      var _ := Put64(buf, off, v);
      off := off + 8;
    }

    method PutString(v: bytes)
      requires off + 2 + |v| <= buf.Length
      modifies this`off, buf
      ensures off == old(off) + 2 + |v| <= buf.Length && Done() == old(Done()) + Prefix16(v)
    {
      hide Prefix16, Prefixed;
      var _ := Putb(buf, off, v);
      off := off + 2 + |v|;
    }

    method PutHeader(m: Message)
      requires off <= buf.Length
      modifies this, buf
      ensures buf == old(buf) || fresh(buf)
      ensures off == 3 <= buf.Length && Done() == [m.kind] + Bytes16(m.tag)
    {
      off := 0;
      Makeroom(3);
      PutByte(m.kind);
      PutUint16(m.tag);
    }

    method PutPayload(m: Message)
      requires off == 3 <= buf.Length && m.kind <= KIND_AUTH && Done() == [m.kind] + Bytes16(m.tag)
      modifies this, buf
      ensures buf == old(buf) || fresh(buf)
      ensures off <= buf.Length && Done() == Encoded(m)
    {
      hide Prefix16, LittleEndian, Bytes16;
      if m.kind == KIND_GET {
        Makeroom(off + 2 + |m.key|);
        PutString(m.key);
      } else if m.kind == KIND_PUT {
        Makeroom(off + 12 + |m.key| + |m.value|);
        PutString(m.key);
        PutString(m.value);
        PutUint64(m.version);
      } else {
        Makeroom(off + 2 + |m.value|);
        PutString(m.value);
      }
    }

    /** Whatever earlier messages left in the buffer, the writer gets the wire form of m, as far as
        it takes it, and a message of an unknown kind is not written at all. */
    method Encode(w: Writer, m: Message) returns (err: Option<CodecError>)
      requires off <= buf.Length
      modifies this, buf, w
      ensures buf == old(buf) || fresh(buf)
      ensures off <= buf.Length
      ensures m.kind > KIND_AUTH ==> err == Some(BadMessage) && w.out == old(w.out) && w.room == old(w.room)
      ensures m.kind <= KIND_AUTH ==>
        w.out == old(w.out) + Clip(Encoded(m), old(w.room)) && w.room == old(w.room) - Min(|Encoded(m)|, old(w.room))
      ensures err == None <==> m.kind <= KIND_AUTH && |Encoded(m)| <= old(w.room)
    {
      PutHeader(m);
      if m.kind > KIND_AUTH {
        return Some(BadMessage);
      }
      PutPayload(m);
      var n, failed := w.Write(buf[..off]);
      if failed {
        return Some(WriteFailed);
      }
      if n != off {
        return Some(Underflow);
      }
      return None;
    }
  }

  // ----- Decoding -----

  /** A stream arrives in chunks, and reading past the end of a chunk fails: a lost connection, a
      deadline that passed or, behind the last chunk, the end of the stream. */
  type Chunks = seq<bytes>

  /** io.ReadFull: the bytes that were read, whether they were all of n, and what is left. */
  function ReadFull(stream: Chunks, n: nat): (r: (bytes, bool, Chunks))
    ensures r.1 ==> |r.0| == n
    ensures |r.0| <= n
  {
    if n == 0 then ([], true, stream)
    else if stream == [] then ([], false, stream)
    else if n <= |stream[0]| then (stream[0][..n], true, [stream[0][n..]] + stream[1..])
    else (stream[0], false, stream[1..])
  }

  /** The decoder's fields together with the stream it reads. */
  datatype Reading = Reading(buf: bytes, off: nat, failed: bool, stream: Chunks)

  /** Grows the buffer to hold n bytes behind the offset, then fills its first n bytes unless an
      earlier read failed. */
  function Read(d: Reading, n: uint16): (r: Reading)
    requires d.off <= |d.buf|
    ensures r.off + n <= |r.buf| && r.off == if d.failed then d.off else 0
    ensures |r.buf| == if |d.buf| - d.off < n then d.off + n else |d.buf|
    ensures d.failed ==> r.failed && r.stream == d.stream
  {
    var buf := if |d.buf| - d.off < n then d.buf + Zeros(d.off + n - |d.buf|) else d.buf;
    if d.failed then d.(buf := buf)
    else
      var (got, ok, stream) := ReadFull(d.stream, n);
      Reading(got + buf[|got|..], 0, !ok, stream)
  }

  function Take(d: Reading, n: nat): (r: Checked<(bytes, Reading)>)
    ensures r.Fine? <==> d.off + n <= |d.buf|
    ensures r.Fine? ==> |r.value.0| == n && r.value.1 == d.(off := d.off + n)
  {
    if d.off + n <= |d.buf| then Fine((d.buf[d.off..d.off + n], d.(off := d.off + n))) else Panic
  }

  function Take16(d: Reading): (r: Checked<(uint16, Reading)>)
    ensures r.Fine? <==> d.off + 2 <= |d.buf|
    ensures r.Fine? ==> r.value.1 == d.(off := d.off + 2)
  {
    var (b, d) :- Take(d, 2);
    Fine((Get16(b).value.0, d))
  }

  /** Kind, tag and, for the kinds that have one, the first length. */
  datatype Head = Head(kind: byte, tag: uint16, n: uint16)

  /** The first read always leaves at least 5 bytes behind offset 0, so this cannot panic. */
  function DecodeHead(d: Reading): (r: (Head, Reading))
    requires d.off <= |d.buf|
    ensures r.1.off <= |r.1.buf| && r.1.off == if r.0.kind <= KIND_AUTH then 5 else 3
  {
    var d := Read(d.(failed := false), 5);
    var (kind, d) := Take(d, 1).value;
    var (tag, d) := Take16(d).value;
    if kind[0] > KIND_AUTH then (Head(kind[0], tag, 0), d) else
      var (n, d) := Take16(d).value;
      (Head(kind[0], tag, n), d)
  }

  /** The key of a Put message and the length of its value; n + 2 is computed in 16 bits. */
  function DecodePutKey(d: Reading, n: uint16): (r: Checked<(bytes, uint16, Reading)>)
    requires d.off <= |d.buf|
    ensures r.Fine? ==> r.value.2.off <= |r.value.2.buf|
  {
    var d := Read(d, Low16(n + 2));
    var (key, d) :- Take(d, n);
    var (n, d) :- Take16(d);
    Fine((key, n, d))
  }

  function DecodePutValue(d: Reading, n: uint16): (r: Checked<(bytes, uint64, Reading)>)
    requires d.off <= |d.buf|
    ensures r.Fine? ==> r.value.2.off <= |r.value.2.buf|
  {
    var d := Read(d, Low16(n + 8));
    var (value, d) :- Take(d, n);
    var (b, d) :- Take(d, 8);
    Fine((value, Get64(b).value.0, d))
  }

  /** The rest of a message into m, once its head has been read. */
  function DecodeBody(d: Reading, head: Head, m: Message): (r: Checked<(Message, Reading)>)
    requires d.off <= |d.buf|
    ensures r.Fine? ==> r.value.1.off <= |r.value.1.buf|
  {
    if head.kind == KIND_GET then
      var (key, d) := Take(Read(d, head.n), head.n).value;
      Fine((m.(key := key), d))
    else if head.kind == KIND_PUT then
      var (key, n, d) :- DecodePutKey(d, head.n);
      var (value, version, d) :- DecodePutValue(d, n);
      Fine((m.(key := key, value := value, version := version), d))
    else if head.kind == KIND_AUTH || head.kind == KIND_ERROR then
      var (value, d) := Take(Read(d, head.n), head.n).value;
      Fine((m.(value := value), d))
    else
      Fine((m, d))
  }

  /** Decode into m; the error that the code returns is the failed flag of the new state. */
  function Decode(d: Reading, m: Message): (r: Checked<(Message, Reading)>)
    requires d.off <= |d.buf|
    ensures r.Fine? ==> r.value.1.off <= |r.value.1.buf|
  {
    var (head, d) := DecodeHead(d);
    DecodeBody(d, head, m.(kind := head.kind, tag := head.tag))
  }

  class Reader {
    var stream: Chunks

    /** io.ReadFull into the first n bytes of the buffer. */
    method FillFrom(buf: array<byte>, n: nat) returns (ok: bool)
      requires n <= buf.Length
      modifies this, buf
      ensures var (got, done, left) := ReadFull(old(stream), n);
        buf[..] == got + old(buf[..])[|got|..] && ok == done && stream == left
    {
      if n == 0 { return true; }
      if stream == [] { return false; }
      var got := if n <= |stream[0]| then stream[0][..n] else stream[0];
      forall i | 0 <= i < |got| { buf[i] := got[i]; }
      ok := n <= |stream[0]|;
      stream := if ok then [stream[0][n..]] + stream[1..] else stream[1..];
    }
  }

  class Decoder {
    var buf: array<byte>
    var off: nat
    var err: bool

    constructor ()
      ensures fresh(buf) && buf.Length == 0 && off == 0 && !err
    {
      buf := new byte[0];
      off, err := 0, false;
    }

    ghost function State(r: Reader): Reading
      reads this, buf, r
    {
      Reading(buf[..], off, err, r.stream)
    }

    method ReadInto(r: Reader, n: uint16)
      requires off <= buf.Length
      modifies this, buf, r
      ensures buf == old(buf) || fresh(buf)
      ensures State(r) == Read(old(State(r)), n)
    {
      if buf.Length - off < n {
        var larger := new byte[off + n](_ => 0);
        forall i | 0 <= i < buf.Length { larger[i] := buf[i]; }
        ghost var before := buf[..];
        buf := larger;
        assert buf[..] == before + Zeros(off + n - |before|);
      }
      if err { return; }
      off := 0;
      var ok := r.FillFrom(buf, n);
      err := !ok;
    }

    /** get8, get16, get64 and gets all cut the next n bytes out of the buffer. */
    method Cut(n: nat, ghost r: Reader) returns (b: Checked<bytes>)
      modifies this`off
      ensures match Take(old(State(r)), n)
        case Panic => b == Panic
        case Fine((cut, d)) => b == Fine(cut) && State(r) == d
    {
      if off + n > buf.Length { return Panic; }
      b := Fine(buf[off..off + n]);
      off := off + n;
    }

    method CutUint16(ghost r: Reader) returns (v: Checked<uint16>)
      modifies this`off
      ensures match Take16(old(State(r)))
        case Panic => v == Panic
        case Fine((n, d)) => v == Fine(n) && State(r) == d
    {
      var b :- Cut(2, r);
      v := Fine(Get16(b).value.0);
    }

    method DecodeHeadFrom(r: Reader) returns (head: Head)
      requires off <= buf.Length
      modifies this, buf, r
      ensures buf == old(buf) || fresh(buf)
      ensures (head, State(r)) == DecodeHead(old(State(r)))
    {
      hide Read;
      err := false;
      ReadInto(r, 5);
      var kind := Cut(1, r);
      var tag := CutUint16(r);
      head := Head(kind.value[0], tag.value, 0);
      if head.kind <= KIND_AUTH {
        var n := CutUint16(r);
        head := head.(n := n.value);
      }
    }

    method DecodePutKeyFrom(r: Reader, n: uint16) returns (out: Checked<(bytes, uint16)>)
      requires off <= buf.Length
      modifies this, buf, r
      ensures buf == old(buf) || fresh(buf)
      ensures match DecodePutKey(old(State(r)), n)
        case Panic => out == Panic
        case Fine((key, l, d)) => out == Fine((key, l)) && State(r) == d
    {
      hide Read, Take, Take16;
      ReadInto(r, Low16(n + 2));
      var key :- Cut(n, r);
      var l :- CutUint16(r);
      out := Fine((key, l));
    }

    method DecodePutValueFrom(r: Reader, n: uint16) returns (out: Checked<(bytes, uint64)>)
      requires off <= buf.Length
      modifies this, buf, r
      ensures buf == old(buf) || fresh(buf)
      ensures match DecodePutValue(old(State(r)), n)
        case Panic => out == Panic
        case Fine((value, version, d)) => out == Fine((value, version)) && State(r) == d
    {
      hide Read, Take, Get64;
      ReadInto(r, Low16(n + 8));
      var value :- Cut(n, r);
      var version :- Cut(8, r);
      out := Fine((value, Get64(version).value.0));
    }

    /** Panic stands for a Go run-time panic: a slice outside of the buffer. */
    method DecodeFrom(r: Reader, m: Message) returns (out: Checked<Message>)
      requires off <= buf.Length
      modifies this, buf, r
      ensures buf == old(buf) || fresh(buf)
      ensures match Decode(old(State(r)), m)
        case Panic => out == Panic
        case Fine((res, d)) => out == Fine(res) && State(r) == d
    {
      hide Read, Take, DecodeHead, DecodePutKey, DecodePutValue;
      var head := DecodeHeadFrom(r);
      var m := m.(kind := head.kind, tag := head.tag);
      if head.kind == KIND_GET {
        ReadInto(r, head.n);
        var key := Cut(head.n, r);
        out := Fine(m.(key := key.value));
      } else if head.kind == KIND_PUT {
        var key :- DecodePutKeyFrom(r, head.n);
        var value :- DecodePutValueFrom(r, key.1);
        out := Fine(m.(key := key.0, value := value.0, version := value.1));
      } else if head.kind == KIND_AUTH || head.kind == KIND_ERROR {
        ReadInto(r, head.n);
        var value := Cut(head.n, r);
        out := Fine(m.(value := value.value));
      } else {
        out := Fine(m);
      }
    }
  }
}
