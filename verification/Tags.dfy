/** The tag generator of pkg/message/tag.go, which also numbers the server's connections. */
module Tags {
  import opened Types

  /** tag++ in 16 bits, and once more past the reserved zero. */
  function Bump(tag: uint16): (t: uint16)
    ensures t != 0
  {
    var t := (tag as int + 1) % 0x1_0000;
    if t == 0 then t + 1 else t
  }

  /** The tag that is handed out after n others. */
  function TagAt(n: nat): uint16 {
    if n == 0 then 1 else Bump(TagAt(n - 1))
  }

  class MonotoneTags {
    ghost var given: nat
    var tag: uint16

    constructor ()
      ensures given == 0 && Valid()
    {
      given, tag := 0, 1;
    }

    ghost predicate Valid()
      reads this
    {
      tag == TagAt(given)
    }

    method Next() returns (t: uint16)
      requires Valid()
      modifies this
      ensures Valid() && given == old(given) + 1 && t == TagAt(old(given))
    {
      t := tag;
      tag := (tag as int + 1) % 0x1_0000;
      if tag == 0 {
        tag := tag + 1;
      }
      given := given + 1;
    }
  }

  lemma {:induction false} TagFormula(n: nat)
    ensures TagAt(n) == n % MAX_UINT16 + 1
  {
    if n > 0 {
      TagFormula(n - 1);
      NextRemainder(n - 1);
    }
  }

  lemma NextRemainder(n: nat)
    ensures (n + 1) % MAX_UINT16 == if n % MAX_UINT16 == MAX_UINT16 - 1 then 0 else n % MAX_UINT16 + 1
  {
    var q, r := n / MAX_UINT16, n % MAX_UINT16;
    assert n == MAX_UINT16 * q + r;
    if r == MAX_UINT16 - 1 {
      assert n + 1 == MAX_UINT16 * (q + 1);
    }
  }

  lemma SameRemainder(i: nat, j: nat)
    requires i <= j
    ensures i % MAX_UINT16 == j % MAX_UINT16 <==> (j - i) % MAX_UINT16 == 0
  {
    var d := j - i;
    assert i == MAX_UINT16 * (i / MAX_UINT16) + i % MAX_UINT16;
    assert d == MAX_UINT16 * (d / MAX_UINT16) + d % MAX_UINT16;
  }

  /** Two tags are the same exactly when a multiple of 65535 lies between them; so any 65535 in a row
      are distinct, and none is zero. */
  lemma SameTag(i: nat, j: nat)
    requires i <= j
    ensures TagAt(i) != 0
    ensures TagAt(i) == TagAt(j) <==> (j - i) % MAX_UINT16 == 0
    ensures i < j < i + MAX_UINT16 ==> TagAt(i) != TagAt(j)
  {
    hide TagAt;
    TagFormula(i);
    TagFormula(j);
    SameRemainder(i, j);
  }
}
