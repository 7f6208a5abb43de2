/** Go's fixed-width integers, where their width changes what the code does.
    The model fixes `uint` and `int` at 64 bits. */
module GoTypes {

  const MaxInt: int := 0x7fff_ffff_ffff_ffff
  const MinInt: int := -0x8000_0000_0000_0000
  const TwoTo64: int := 0x1_0000_0000_0000_0000

  /** A Go `uint`. */
  type Uint = n: int | 0 <= n < 0x1_0000_0000_0000_0000

  /** `int(u)`: the same 64 bits read as a signed value. */
  function Int(u: Uint): (r: int)
    ensures MinInt <= r <= MaxInt
    ensures u <= MaxInt ==> r == u
    ensures u > MaxInt ==> r < 0 && r == u - TwoTo64
  {
    if u <= MaxInt then u else u - TwoTo64
  }

  /** The value a Go `int` expression takes when its exact value is `a`
      (two's-complement wrap-around). */
  function Wrap(a: int): (r: int)
    ensures MinInt <= r <= MaxInt
    ensures (r - a) % TwoTo64 == 0
  {
    var m := (a - MinInt) % TwoTo64;
    m + MinInt
  }

  lemma WrapInRange(a: int)
    requires MinInt <= a <= MaxInt
    ensures Wrap(a) == a
  {
    var m := (a - MinInt) % TwoTo64;
    assert a - MinInt < TwoTo64;
    assert m == a - MinInt;
  }

  lemma WrapJustAbove(a: int)
    requires MaxInt < a < TwoTo64
    ensures Wrap(a) == a - TwoTo64 && Wrap(a) < 0
  {
    var m := (a - MinInt) % TwoTo64;
    assert TwoTo64 <= a - MinInt < 2 * TwoTo64;
    assert m == a - MinInt - TwoTo64;
  }
}
