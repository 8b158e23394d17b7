/** Machine integers, byte strings and the small result types shared by every module. */
module Types {

  type byte = x: int | 0 <= x < 0x100
  type uint16 = x: int | 0 <= x < 0x1_0000
  type uint32 = x: int | 0 <= x < 0x1_0000_0000
  type uint64 = x: int | 0 <= x < 0x1_0000_0000_0000_0000

  /** A Go []byte read as a value, and a Go string, which is a byte string too. */
  type bytes = seq<byte>

  const MAX_UINT16: uint16 := 0xffff
  const MAX_UINT64: uint64 := 0xffff_ffff_ffff_ffff

  datatype Option<+T> = None | Some(value: T)

  /** The outcome of code that may run into a Go run-time panic. */
  datatype Checked<+T> = Fine(value: T) | Panic {
    predicate IsFailure() { Panic? }

    function PropagateFailure<U>(): Checked<U>
      requires Panic?
    {
      Panic
    }

    function Extract(): T
      requires Fine?
    {
      value
    }
  }

  function Min(a: int, b: int): int { if a < b then a else b }

  /** What a Go conversion to uint16 keeps of a length. */
  function Low16(n: nat): uint16 { n % 0x1_0000 }

  function Zeros(n: nat): (z: bytes)
    ensures |z| == n && forall i :: 0 <= i < n ==> z[i] == 0
  {
    seq(n, _ => 0)
  }
}
