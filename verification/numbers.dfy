/** The machine integers the adapter stores its counts in, and powers of two. */
module Numbers {

  const TwoTo31: int := 0x8000_0000
  const TwoTo32: int := 0x1_0000_0000

  /** A C `int`: what `atoi` and `getNumberOfElements` return. */
  type Int32 = x: int | -TwoTo31 <= x < TwoTo31

  /** A C `unsigned`: the type of the requested number of jets. */
  type UInt32 = x: int | 0 <= x < TwoTo32

  /** Implicit conversion of an `int` to `unsigned`: reduction modulo 2^32. */
  function ToUnsigned(x: Int32): (u: UInt32)
    ensures 0 <= x ==> u == x
    ensures x < 0 ==> u == x + TwoTo32
  {
    x % TwoTo32
  }

  /** The `(int)` cast of an `unsigned`, two's complement. */
  function ToSigned(u: UInt32): (x: Int32)
    ensures u < TwoTo31 ==> x == u
    ensures TwoTo31 <= u ==> x < 0
  {
    if u < TwoTo31 then u else u - TwoTo32
  }

  /** Storing an `int` in an `unsigned` and casting it back is lossless, and so
      is the reverse: the two conversions are mutually inverse bijections. */
  lemma SignedUnsignedRoundTrip(x: Int32, u: UInt32)
    ensures ToSigned(ToUnsigned(x)) == x
    ensures ToUnsigned(ToSigned(u)) == u
  {
  }

  function Pow2(n: nat): (p: nat)
    ensures p >= 1
  {
    if n == 0 then 1 else 2 * Pow2(n - 1)
  }
}
