/** The C++ fixed-width integer behaviour the model needs: uint64 increment and the int32 cast. */
module FixedWidth {
  const TwoTo31: int := 0x8000_0000
  const TwoTo32: int := 0x1_0000_0000
  const TwoTo64: int := 0x1_0000_0000_0000_0000

  newtype uint64 = x: int | 0 <= x < 0x1_0000_0000_0000_0000

  /** The largest uint64, which is also `(uint64_t)-1`. */
  const MaxUint64: uint64 := 0xFFFF_FFFF_FFFF_FFFF

  /** Pre-increment of a uint64: wraps to 0 after the largest value. */
  function Inc(c: uint64): (r: uint64)
    ensures c < MaxUint64 ==> r as int == c as int + 1
    ensures c == MaxUint64 ==> r == 0
  {
    ((c as int + 1) % TwoTo64) as uint64
  }

  /** `n` pre-increments of a uint64 in a row, as a run of numbered requests takes them. */
  function IncTimes(c: uint64, n: nat): uint64
    decreases n
  {
    if n == 0 then c else Inc(IncTimes(c, n - 1))
  }

  /** `n` increments in a row add `n` modulo 2^64. */
  lemma {:induction false} IncTimesAddsModulo(c: uint64, n: nat)
    ensures IncTimes(c, n) as int == (c as int + n) % TwoTo64
    decreases n
  {
    if n > 0 {
      IncTimesAddsModulo(c, n - 1);
      var a := c as int + n - 1;
      var q := a / TwoTo64;
      assert a == q * TwoTo64 + a % TwoTo64;
      if a % TwoTo64 == TwoTo64 - 1 {
        assert a + 1 == (q + 1) * TwoTo64;
      } else {
        assert a + 1 == q * TwoTo64 + (a % TwoTo64 + 1);
      }
    }
  }

  /** static_cast<int32> of an unsigned count: the low 32 bits read as two's complement. */
  function Int32Of(n: nat): (r: int)
    ensures -TwoTo31 <= r < TwoTo31
    ensures n < TwoTo31 ==> r == n
    ensures (r - n) % TwoTo32 == 0
  {
    var low := n % TwoTo32;
    if low < TwoTo31 then low else low - TwoTo32
  }
}
