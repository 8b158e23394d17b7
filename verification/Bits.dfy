/** Little-endian integers and length-prefixed byte strings (pkg/bits/bits.go). A Go slice that is
    filled in place is an array and the index where the slice starts; the returned index is where the
    returned, shorter slice starts. */
module Bits {
  import opened Types

  function Pow256(n: nat): (p: nat)
    ensures p > 0
  {
    if n == 0 then 1 else 0x100 * Pow256(n - 1)
  }

  /** The n low bytes of v, the lowest first. */
  function LittleEndian(v: nat, n: nat): (b: bytes)
    ensures |b| == n
  {
    if n == 0 then [] else [v % 0x100] + LittleEndian(v / 0x100, n - 1)
  }

  function FromLittleEndian(b: bytes): (v: nat)
    ensures v < Pow256(|b|)
  {
    if b == [] then 0 else b[0] + 0x100 * FromLittleEndian(b[1..])
  }

  lemma {:induction false} LittleEndianRoundTrip(v: nat, n: nat)
    requires v < Pow256(n)
    ensures FromLittleEndian(LittleEndian(v, n)) == v
  {
    if n > 0 {
      LittleEndianRoundTrip(v / 0x100, n - 1);
      assert LittleEndian(v, n)[1..] == LittleEndian(v / 0x100, n - 1);
    }
  }

  lemma {:induction false} FromLittleEndianRoundTrip(b: bytes)
    ensures LittleEndian(FromLittleEndian(b), |b|) == b
  {
    if b != [] {
      FromLittleEndianRoundTrip(b[1..]);
      var rest := FromLittleEndian(b[1..]);
      assert (b[0] + 0x100 * rest) % 0x100 == b[0] && (b[0] + 0x100 * rest) / 0x100 == rest;
    }
  }

  lemma WidthsOfMachineIntegers()
    ensures Pow256(4) == 0x1_0000_0000
    ensures Pow256(8) == 0x1_0000_0000_0000_0000
  {
    assert Pow256(4) == 0x100 * (0x100 * (0x100 * (0x100 * Pow256(0))));
    assert Pow256(8) == 0x100 * (0x100 * (0x100 * (0x100 * Pow256(4))));
  }

  /** LittleEndian(v, 2), written out. */
  function Bytes16(v: uint16): (b: bytes)
    ensures |b| == 2
  {
    [v % 0x100, v / 0x100]
  }

  lemma Bytes16IsLittleEndian(v: uint16)
    ensures Bytes16(v) == LittleEndian(v, 2)
  {
    assert LittleEndian(v, 2) == [v % 0x100] + ([v / 0x100 % 0x100] + LittleEndian(v / 0x1_0000, 0));
  }

  /** What the buffer holds once p has been written over it, starting at index at. */
  function Overlay(buf: bytes, at: nat, p: bytes): (r: bytes)
    requires at + |p| <= |buf|
    ensures |r| == |buf|
  {
    buf[..at] + p + buf[at + |p|..]
  }

  lemma OverlayTwice(buf: bytes, at: nat, p: bytes, q: bytes)
    requires at + |p| + |q| <= |buf|
    ensures Overlay(Overlay(buf, at, p), at + |p|, q) == Overlay(buf, at, p + q)
  {
  }

  method Put8(b: array<byte>, at: nat, v: byte) returns (rest: nat)
    requires at + 1 <= b.Length
    modifies b
    ensures b[..] == Overlay(old(b[..]), at, [v]) && rest == at + 1
  {
    b[at] := v;
    rest := at + 1;
  }

  method Put16(b: array<byte>, at: nat, v: uint16) returns (rest: nat)
    requires at + 2 <= b.Length
    modifies b
    ensures b[..] == Overlay(old(b[..]), at, Bytes16(v)) && rest == at + 2
  {
    b[at] := v % 0x100;
    b[at + 1] := v / 0x100 % 0x100;
    rest := at + 2;
  }

  lemma LittleEndianFourBytes(v: nat, n: nat)
    requires n >= 4
    ensures LittleEndian(v, n) ==
      [v % 0x100, v / 0x100 % 0x100, v / 0x1_0000 % 0x100, v / 0x100_0000 % 0x100]
      + LittleEndian(v / 0x1_0000_0000, n - 4)
  {
    var w := v / 0x1_0000;
    assert v / 0x100 / 0x100 == w;
    assert LittleEndian(v, n) == [v % 0x100] + ([v / 0x100 % 0x100] + LittleEndian(w, n - 2));
    assert w / 0x100 / 0x100 == v / 0x1_0000_0000;
    assert LittleEndian(w, n - 2) == [w % 0x100] + ([w / 0x100 % 0x100] + LittleEndian(v / 0x1_0000_0000, n - 4));
  }

  method Put32(b: array<byte>, at: nat, v: uint32) returns (rest: nat)
    requires at + 4 <= b.Length
    modifies b
    ensures b[..] == Overlay(old(b[..]), at, LittleEndian(v, 4)) && rest == at + 4
  {
    b[at] := v % 0x100;
    b[at + 1] := v / 0x100 % 0x100;
    b[at + 2] := v / 0x1_0000 % 0x100;
    b[at + 3] := v / 0x100_0000 % 0x100;
    rest := at + 4;
    LittleEndianFourBytes(v, 4);
  }

  method Put64(b: array<byte>, at: nat, v: uint64) returns (rest: nat)
    requires at + 8 <= b.Length
    modifies b
    ensures b[..] == Overlay(old(b[..]), at, LittleEndian(v, 8)) && rest == at + 8
  {
    b[at] := v % 0x100;
    b[at + 1] := v / 0x100 % 0x100;
    b[at + 2] := v / 0x1_0000 % 0x100;
    b[at + 3] := v / 0x100_0000 % 0x100;
    b[at + 4] := v / 0x1_0000_0000 % 0x100;
    b[at + 5] := v / 0x1_0000_0000 / 0x100 % 0x100;
    b[at + 6] := v / 0x1_0000_0000 / 0x1_0000 % 0x100;
    b[at + 7] := v / 0x1_0000_0000 / 0x100_0000 % 0x100;
    rest := at + 8;
    LittleEndian8(v);
  }

  lemma LittleEndian8(v: nat)
    ensures LittleEndian(v, 8) == [
      v % 0x100, v / 0x100 % 0x100, v / 0x1_0000 % 0x100, v / 0x100_0000 % 0x100,
      v / 0x1_0000_0000 % 0x100, v / 0x1_0000_0000 / 0x100 % 0x100,
      v / 0x1_0000_0000 / 0x1_0000 % 0x100, v / 0x1_0000_0000 / 0x100_0000 % 0x100]
  {
    LittleEndianFourBytes(v, 8);
    LittleEndianFourBytes(v / 0x1_0000_0000, 4);
  }

  /** The wire form of a byte string: its length, cut down to 16 bits, then all of it. */
  function Prefix16(v: bytes): (p: bytes)
    ensures |p| == 2 + |v|
  {
    Bytes16(Low16(|v|)) + v
  }

  /** What Putb and Puts write where there is only so much room. */
  function Prefixed(v: bytes, room: nat): (p: bytes)
    requires room >= 2
    ensures |p| <= room
    ensures 2 + |v| <= room ==> p == Prefix16(v)
  {
    Bytes16(Low16(|v|)) + v[..Min(|v|, room - 2)]
  }

  /** Putb and Puts: the slice that comes back starts behind the length that was written, which is
      behind the whole of v only while |v| fits in 16 bits. */
  method Putb(b: array<byte>, at: nat, v: bytes) returns (rest: nat)
    requires at + 2 + Low16(|v|) <= b.Length
    modifies b
    ensures b[..] == Overlay(old(b[..]), at, Prefixed(v, b.Length - at))
    ensures rest == at + 2 + Low16(|v|)
  {
    ghost var before := b[..];
    var n := Min(|v|, b.Length - at - 2);
    var from := Put16(b, at, Low16(|v|));
    ghost var mid := b[..];
    forall i | 0 <= i < n {
      b[from + i] := v[i];
    }
    rest := from + Low16(|v|);
    assert b[..] == Overlay(mid, from, v[..n]);
    OverlayTwice(before, at, Bytes16(Low16(|v|)), v[..n]);
  }

  function Get16(b: bytes): (r: Checked<(uint16, bytes)>)
    ensures r.Fine? <==> |b| >= 2
  {
    if |b| < 2 then Panic else
      var low: int, high: int := b[0], b[1];
      Fine((low + 0x100 * high, b[2..]))
  }

  function Get32(b: bytes): (r: Checked<(uint32, bytes)>)
    ensures r.Fine? <==> |b| >= 4
  {
    WidthsOfMachineIntegers();
    if |b| < 4 then Panic else Fine((FromLittleEndian(b[..4]), b[4..]))
  }

  function Get64(b: bytes): (r: Checked<(uint64, bytes)>)
    ensures r.Fine? <==> |b| >= 8
  {
    WidthsOfMachineIntegers();
    if |b| < 8 then Panic else Fine((FromLittleEndian(b[..8]), b[8..]))
  }

  /** Getb and Gets. */
  function Getb(b: bytes): (r: Checked<(bytes, bytes)>)
    ensures r.Fine? ==> |r.value.0| <= MAX_UINT16 && |r.value.1| + |r.value.0| + 2 == |b|
  {
    var (n, rest) :- Get16(b);
    if |rest| < n then Panic else Fine((rest[..n], rest[n..]))
  }

  lemma Get16OfBytes(v: uint16, rest: bytes)
    ensures Get16(Bytes16(v) + rest) == Fine((v, rest))
  {
    assert (Bytes16(v) + rest)[2..] == rest;
  }

  lemma GetbOfPrefixed(v: bytes, rest: bytes)
    requires |v| <= MAX_UINT16
    ensures Getb(Prefix16(v) + rest) == Fine((v, rest))
  {
    var tail := v + rest;
    assert Prefix16(v) + rest == Bytes16(|v|) + tail;
    Get16OfBytes(|v|, tail);
    assert tail[..|v|] == v;
    assert tail[|v|..] == rest;
  }

  lemma GetOfLittleEndian(v: nat, n: nat, rest: bytes)
    requires v < Pow256(n)
    ensures (LittleEndian(v, n) + rest)[n..] == rest
    ensures FromLittleEndian((LittleEndian(v, n) + rest)[..n]) == v
  {
    LittleEndianRoundTrip(v, n);
    assert (LittleEndian(v, n) + rest)[..n] == LittleEndian(v, n);
  }
}
