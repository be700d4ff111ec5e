/** The doubling `p.d *= multiplier` as Go performs it on an int64: the
    product wraps around modulo 2^64. Once the base passes half of the largest
    duration the doubled base is negative, and weighted then asks Int63n for a
    draw below a negative bound, which panics. Module Backoff uses the
    saturating Double instead. */
module Int64Doubling {
  import opened Backoff

  const Two64: int := 0x1_0000_0000_0000_0000
  const Two63: int := 0x8000_0000_0000_0000

  /** Two's complement wrap-around of an integer into an int64. */
  function Wrap64(x: int): (r: int)
    ensures -Two63 <= r < Two63
    ensures -Two63 <= x < Two63 ==> r == x
  {
    (x + Two63) % Two64 - Two63
  }

  /** `p.d *= multiplier` on a time.Duration. */
  function DoubleAsWritten(d: int): int {
    Wrap64(d * Multiplier)
  }

  /** The base after k calls of advance, with the int64 doubling. */
  function ScheduleAsWritten(initial: int, k: nat): int
    requires k >= 1
  {
    if k == 1 then FirstBase(initial) else DoubleAsWritten(ScheduleAsWritten(initial, k - 1))
  }

  lemma {:induction false} Pow2Sum(a: nat, b: nat)
    ensures Pow2(a + b) == Pow2(a) * Pow2(b)
  {
    if a > 0 {
      Pow2Sum(a - 1, b);
    }
  }

  /** The first doubling that leaves the int64 range yields a negative base. */
  lemma FirstOverflowIsNegative(d: int)
    requires MaxDuration / Multiplier < d <= MaxDuration
    ensures DoubleAsWritten(d) < 0
  {
    var x := d * Multiplier;
    assert Two64 <= x + Two63 < 2 * Two64;
    assert (x + Two63) % Two64 == x + Two63 - Two64;
  }

  /** Until the product leaves the int64 range the two doublings agree. */
  lemma {:induction false} AsWrittenAgreesBeforeOverflow(initial: int, k: nat)
    requires ValidInitial(initial)
    requires k >= 1
    requires FirstBase(initial) * Pow2(k - 1) <= MaxDuration
    ensures ScheduleAsWritten(initial, k) == Schedule(initial, k)
  {
    if k > 1 {
      var f := FirstBase(initial);
      assert f * Pow2(k - 1) == Multiplier * (f * Pow2(k - 2));
      AsWrittenAgreesBeforeOverflow(initial, k - 1);
      ScheduleDoubles(initial, k);
    }
  }

  /** With Initial unset and no Limit, the 35th call of advance stores a
      negative base: 10^9 * 2^33 still fits, its double does not. Without an
      override, weighted's requirement d >= 2 fails there (Int63n panics),
      while the saturating schedule stays at the largest duration. */
  lemma AsWrittenDefaultOverflows()
    ensures ScheduleAsWritten(0, 34) == 8_589_934_592_000_000_000
    ensures ScheduleAsWritten(0, 35) == -1_266_874_889_709_551_616
    ensures ScheduleAsWritten(0, 35) < WeightDiv
    ensures Schedule(0, 35) == MaxDuration
  {
    DefaultBase34();
    var b := 8_589_934_592_000_000_000;
    assert ScheduleAsWritten(0, 35) == Wrap64(b * Multiplier);
    assert Wrap64(b * Multiplier) == -1_266_874_889_709_551_616 by {
      assert b * Multiplier + Two63 == Two64 + 7_956_497_147_145_224_192;
    }
    assert Schedule(0, 35) == Double(b);
  }

  /** The 34th base with Initial unset, 10^9 * 2^33, is the same in both doublings. */
  lemma DefaultBase34()
    ensures Schedule(0, 34) == 8_589_934_592_000_000_000
    ensures ScheduleAsWritten(0, 34) == 8_589_934_592_000_000_000
  {
    Pow2At33();
    ScheduleDoubles(0, 34);
    AsWrittenAgreesBeforeOverflow(0, 34);
  }

  lemma Pow2At33()
    ensures Pow2(33) == 8_589_934_592
  {
    assert Pow2(4) == 16;
    assert Pow2(8) == 256 by { Pow2Sum(4, 4); }
    assert Pow2(16) == 65_536 by { Pow2Sum(8, 8); }
    assert Pow2(32) == 4_294_967_296 by { Pow2Sum(16, 16); }
  }
}
