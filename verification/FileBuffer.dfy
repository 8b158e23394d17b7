/** A node's content as Go keeps it: a slice of a backing array that may be longer than the slice
    (resize, Write and Read of pkg/node/node.go). */
module FileBuffer {
  import opened Types
  import opened Bits

  /** The backing array and the length of the slice; the capacity is that of the array. */
  datatype Slice = Slice(backing: bytes, len: nat) {
    predicate Valid() { len <= |backing| }

    function Content(): bytes
      requires Valid()
    {
      backing[..len]
    }
  }

  function Resize(s: Slice, size: nat): (r: Slice)
    requires s.Valid()
    ensures r.Valid() && r.len == size && |r.backing| >= |s.backing|
  {
    if size > |s.backing| then Slice(s.Content() + Zeros(size - s.len), size) else s.(len := size)
  }

  function Write(s: Slice, data: bytes, off: nat): (r: Slice)
    requires s.Valid()
    ensures r.Valid()
  {
    var t := if off + |data| > s.len then Resize(s, off + |data|) else s;
    t.(backing := Overlay(t.backing, off, data))
  }

  function Read(s: Slice, n: nat, off: nat): bytes
    requires s.Valid()
  {
    if off > s.len then [] else s.Content()[off..Min(off + n, s.len)]
  }

  // ----- What a file is meant to hold -----

  /** A file's bytes at another size: cut off, or extended by zeros. */
  function Sized(c: bytes, size: nat): (r: bytes)
    ensures |r| == size
  {
    if size <= |c| then c[..size] else c + Zeros(size - |c|)
  }

  /** A file's bytes after a write; a hole is filled with zeros. */
  function Written(c: bytes, data: bytes, off: nat): (r: bytes)
    ensures |r| == if off + |data| > |c| then off + |data| else |c|
  {
    Overlay(Sized(c, if off + |data| > |c| then off + |data| else |c|), off, data)
  }

  /** The bytes that a growing slice takes over from its backing array are zero, up to a limit. */
  predicate Clean(s: Slice, size: nat, limit: nat)
    requires s.Valid()
  {
    size <= |s.backing| ==> forall k :: s.len <= k < Min(limit, |s.backing|) ==> s.backing[k] == 0
  }

  /** Growing within the capacity brings old bytes back unless they are zero. */
  lemma ResizeIsExact(s: Slice, size: nat)
    requires s.Valid()
    ensures Resize(s, size).Content() == Sized(s.Content(), size) <==> (size > s.len ==> Clean(s, size, size))
  {
    var c, z := Resize(s, size).Content(), Sized(s.Content(), size);
    if s.len < size <= |s.backing| {
      assert forall k :: s.len <= k < size ==> c[k] == s.backing[k] && z[k] == 0;
    } else {
      assert c == z;
    }
  }

  /** A write does what it should if and only if the hole it may leave behind the old end is clean. */
  lemma WriteIsExact(s: Slice, data: bytes, off: nat)
    requires s.Valid()
    ensures Write(s, data, off).Content() == Written(s.Content(), data, off)
      <==> (off + |data| > s.len ==> Clean(s, off + |data|, off))
  {
    var c, w := Write(s, data, off).Content(), Written(s.Content(), data, off);
    if s.len < off + |data| <= |s.backing| {
      assert forall k :: s.len <= k < off ==> c[k] == s.backing[k] && w[k] == 0;
    } else if off + |data| <= s.len {
      assert s.Content()[..s.len] == s.Content();
      OverlayOfPrefix(s.backing, s.len, data, off);
    } else {
      assert Resize(s, off + |data|).backing == Sized(s.Content(), off + |data|);
    }
  }

  lemma OverlayOfPrefix(b: bytes, n: nat, data: bytes, off: nat)
    requires off + |data| <= n <= |b|
    ensures Overlay(b, off, data)[..n] == Overlay(b[..n], off, data)
  {
  }

  /** One of a run of Write calls. */
  datatype Put = Put(data: bytes, off: nat)

  function WriteAll(s: Slice, puts: seq<Put>): (r: Slice)
    requires s.Valid()
    ensures r.Valid()
  {
    if puts == [] then s else
      var last := puts[|puts| - 1];
      Write(WriteAll(s, puts[..|puts| - 1]), last.data, last.off)
  }

  function WrittenAll(c: bytes, puts: seq<Put>): bytes {
    if puts == [] then c else
      var last := puts[|puts| - 1];
      Written(WrittenAll(c, puts[..|puts| - 1]), last.data, last.off)
  }

  /** From content that fills its array, any run of writes keeps it so and amounts to the same run on
      a plain byte array, with zeros in every hole. */
  lemma {:induction false} WritesAreExact(s: Slice, puts: seq<Put>)
    requires s.len == |s.backing|
    ensures WriteAll(s, puts).len == |WriteAll(s, puts).backing|
    ensures WriteAll(s, puts).Content() == WrittenAll(s.Content(), puts)
    decreases |puts|
  {
    if puts != [] {
      var less, last := puts[..|puts| - 1], puts[|puts| - 1];
      WritesAreExact(s, less);
      WriteIsExact(WriteAll(s, less), last.data, last.off);
    }
  }

  /** ... and every read returns exactly its part of that byte array. */
  lemma ReadsAreExact(s: Slice, puts: seq<Put>, n: nat, off: nat)
    requires s.len == |s.backing|
    ensures var c := WrittenAll(s.Content(), puts);
      Read(WriteAll(s, puts), n, off) == if off > |c| then [] else c[off..Min(off + n, |c|)]
  {
    WritesAreExact(s, puts);
  }
}
