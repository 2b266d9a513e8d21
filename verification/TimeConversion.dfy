/** Conversions between milliseconds and ticks, with the 64-bit arithmetic of
    the code written out. */
module TimeConversion {
  import opened MachineInts

  const MAX_TICKS: nat := UINT32 - 2     // one below the wait-forever value

  /** Unsigned 64-bit addition and multiplication. */
  function Add64(a: nat, b: nat): nat {
    (a + b) % UINT64
  }

  function Mul64(a: nat, b: nat): nat {
    (a * b) % UINT64
  }

  function Div64(a: nat, b: nat): (q: nat)
    requires b > 0
    ensures q * b <= a < q * b + b
  {
    a / b
  }

  predicate Rate(rate: nat) {
    0 < rate < UINT32
  }

  function MsToTicks(ms: nat, rate: nat): nat
    requires Rate(rate)
  {
    var whole, remainder := ms / 1000, ms % 1000;
    if whole > Div64(MAX_TICKS, rate) then MAX_TICKS
    else
      var ticks := Add64(Mul64(whole, rate), Div64(Add64(Mul64(remainder, rate), 999), 1000));
      if ticks > MAX_TICKS then MAX_TICKS else ticks
  }

  function TicksToMs(ticks: nat, rate: nat): nat
    requires Rate(rate)
  {
    var whole, remainder := Div64(ticks, rate), ticks % rate;
    if whole > (UINT64 - 1) / 1000 then UINT64 - 1
    else Add64(Mul64(whole, 1000), Div64(Mul64(remainder, 1000), rate))
  }

  function Min(a: nat, b: nat): nat {
    if a < b then a else b
  }

  // ---- Division

  lemma MulMono(a: nat, b: nat, c: nat)
    requires a <= b
    ensures a * c <= b * c
  {}

  /** The quotient is the largest number of times `c` fits. */
  lemma Fits(a: nat, b: nat, c: nat)
    requires c > 0
    ensures a <= b / c <==> a * c <= b
  {
    var q := b / c;
    assert b == q * c + b % c;
    if a <= q {
      MulMono(a, q, c);
    } else {
      MulMono(q + 1, a, c);
      assert (q + 1) * c == q * c + c;
    }
  }

  lemma QuotientIs(b: nat, c: nat, q: nat)
    requires c > 0 && q * c <= b < (q + 1) * c
    ensures b / c == q
  {
    Fits(q, b, c);
    Fits(q + 1, b, c);
  }

  /** Dividing a multiple plus a rest. */
  lemma Split(k: nat, c: nat, b: nat)
    requires c > 0
    ensures (k * c + b) / c == k + b / c
  {
    var q := b / c;
    assert b == q * c + b % c;
    assert (k + q) * c == k * c + q * c;
    assert (k + q + 1) * c == k * c + q * c + c;
    QuotientIs(k * c + b, c, k + q);
  }

  // ---- Milliseconds to ticks

  /** The number of ticks that covers `ms`. */
  function Ceil(ms: nat, rate: nat): nat {
    (ms * rate + 999) / 1000
  }

  /** Rounded up and saturated, with no 64-bit overflow on the way. */
  lemma MsToTicksExact(ms: nat, rate: nat)
    requires Rate(rate) && ms < UINT64
    ensures MsToTicks(ms, rate) == Min(Ceil(ms, rate), MAX_TICKS)
    ensures ms / 1000 <= Div64(MAX_TICKS, rate) ==>
              (ms / 1000) * rate + Div64((ms % 1000) * rate + 999, 1000) < UINT64 && (ms % 1000) * rate + 999 < UINT64
  {
    hide Div64, Mul64, Add64, Ceil;
    var whole, remainder := ms / 1000, ms % 1000;
    CeilSplit(ms, rate);
    MulMono(remainder, 999, rate);
    Fits(whole, MAX_TICKS, rate);
    Quotient(MAX_TICKS, rate);
    Quotient(remainder * rate + 999, 1000);
    SmallMul(remainder, rate);
    SmallAdd(remainder * rate, 999);
    if whole <= Div64(MAX_TICKS, rate) {
      SmallMul(whole, rate);
      SmallAdd(whole * rate, Div64(remainder * rate + 999, 1000));
    }
  }

  lemma SmallMul(a: nat, b: nat)
    requires a * b < UINT64
    ensures Mul64(a, b) == a * b
  {}

  lemma SmallAdd(a: nat, b: nat)
    requires a + b < UINT64
    ensures Add64(a, b) == a + b
  {}

  lemma Quotient(a: nat, b: nat)
    requires b > 0
    ensures Div64(a, b) == a / b && a / b <= a
  {
    MulMono(1, b, a / b);
    assert (a / b) * b <= a;
  }

  lemma CeilSplit(ms: nat, rate: nat)
    requires rate > 0
    ensures Ceil(ms, rate) == (ms / 1000) * rate + Div64((ms % 1000) * rate + 999, 1000)
  {
    var whole, remainder := ms / 1000, ms % 1000;
    assert ms * rate + 999 == (whole * rate) * 1000 + (remainder * rate + 999) by {
      assert ms == whole * 1000 + remainder;
      assert (whole * 1000 + remainder) * rate == (whole * rate) * 1000 + remainder * rate;
    }
    Split(whole * rate, 1000, remainder * rate + 999);
  }

  // ---- Ticks to milliseconds

  /** The milliseconds that have passed after `ticks`. */
  function Floor(ticks: nat, rate: nat): nat
    requires rate > 0
  {
    ticks * 1000 / rate
  }

  lemma FloorSplit(ticks: nat, rate: nat)
    requires Rate(rate)
    ensures Floor(ticks, rate) == (ticks / rate) * 1000 + ((ticks % rate) * 1000) / rate
    ensures ((ticks % rate) * 1000) / rate < 1000
  {
    var whole, remainder := ticks / rate, ticks % rate;
    assert ticks * 1000 == (whole * 1000) * rate + remainder * 1000 by {
      assert ticks == whole * rate + remainder;
      assert (whole * rate + remainder) * 1000 == (whole * 1000) * rate + remainder * 1000;
    }
    Split(whole * 1000, rate, remainder * 1000);
    Fits(1000, remainder * 1000, rate);
  }

  /** The conversion saturates as intended except in one narrow window, where
      the last addition wraps and the result is close to zero. */
  lemma TicksToMsExact(ticks: nat, rate: nat)
    requires Rate(rate)
    ensures TicksToMs(ticks, rate) == Min(Floor(ticks, rate), UINT64 - 1)
       <==> !(ticks / rate == 18446744073709551 && ((ticks % rate) * 1000) / rate >= 616)
    ensures Floor(ticks, rate) < UINT64 ==> TicksToMs(ticks, rate) == Floor(ticks, rate)
  {
    hide Div64, Mul64, Add64, Floor;
    var whole, remainder := ticks / rate, ticks % rate;
    FloorSplit(ticks, rate);
    Quotient(ticks, rate);
    Quotient(remainder * 1000, rate);
    SmallMul(remainder, 1000);
    if whole <= (UINT64 - 1) / 1000 {
      SmallMul(whole, 1000);
      LastAdd(whole, (remainder * 1000) / rate);
    }
  }

  /** The last addition wraps only at the very end of the range. */
  lemma LastAdd(whole: nat, rest: nat)
    requires whole <= (UINT64 - 1) / 1000 && rest < 1000
    ensures Add64(whole * 1000, rest)
         == if whole == 18446744073709551 && rest >= 616 then rest - 616 else whole * 1000 + rest
    ensures whole * 1000 + rest >= UINT64 <==> whole == 18446744073709551 && rest >= 616
  {}

  /** At 1000 ticks a second or more, no 64-bit tick count is in that window. */
  lemma FastClockSaturates(ticks: nat, rate: nat)
    requires Rate(rate) && rate >= 1000 && ticks < UINT64
    ensures TicksToMs(ticks, rate) == Min(Floor(ticks, rate), UINT64 - 1)
  {
    hide Div64, Mul64, Add64, TicksToMs, Floor;
    TicksToMsExact(ticks, rate);
    FloorSplit(ticks, rate);
    assert ticks == (ticks / rate) * rate + ticks % rate;
    MulMono(1000, rate, ticks / rate);
    Fits(616, (ticks % rate) * 1000, rate);
  }

  /** A tick count at 100 ticks a second whose conversion wraps to 4 instead of
      saturating. */
  lemma WrapExample()
    ensures var ticks := 18446744073709551 * 100 + 62;
            ticks < UINT64 && TicksToMs(ticks, 100) == 4 && Floor(ticks, 100) > UINT64 - 1
  {
    FloorSplit(18446744073709551 * 100 + 62, 100);
  }

  // ---- The two together

  /** Waiting `ms` takes at most `t` ticks exactly when `t` ticks last at least
      `ms`: the two conversions form a Galois connection. */
  lemma Galois(ms: nat, t: nat, rate: nat)
    requires Rate(rate) && ms < UINT64 && t < MAX_TICKS
    ensures MsToTicks(ms, rate) <= t <==> ms <= TicksToMs(t, rate)
  {
    MsToTicksExact(ms, rate);
    CeilLe(ms, t, rate);
    SmallTicks(t, rate);
    Fits(ms, t * 1000, rate);
  }

  lemma CeilLe(ms: nat, t: nat, rate: nat)
    requires rate > 0
    ensures Ceil(ms, rate) <= t <==> ms * rate <= t * 1000
  {
    Fits(t + 1, ms * rate + 999, 1000);
  }

  lemma SmallTicks(t: nat, rate: nat)
    requires Rate(rate) && t < UINT32
    ensures TicksToMs(t, rate) == Floor(t, rate)
  {
    TicksToMsExact(t, rate);
    Fits(UINT64, t * 1000, rate);
    MulMono(1, rate, UINT64);
  }

  /** Converting there and back never shortens a wait that fits. */
  lemma RoundTrip(ms: nat, rate: nat)
    requires Rate(rate) && ms < UINT64 && Ceil(ms, rate) < MAX_TICKS
    ensures ms <= TicksToMs(MsToTicks(ms, rate), rate)
  {
    MsToTicksExact(ms, rate);
    Galois(ms, MsToTicks(ms, rate), rate);
  }
}
