/**
 The retry arithmetic: doubling toward a cap on a 64-bit Duration, saturating before
 the multiply. `Saturating` is what the loop computes on int64, wrap-around included;
 `Ladder` is the schedule over unbounded integers, which the loop follows for every
 cap that is not negative.
 */
module Backoff {

  const MAX_INT64 := 0x7FFF_FFFF_FFFF_FFFF
  const MIN_INT64 := -0x8000_0000_0000_0000

  newtype int64 = x: int | MIN_INT64 <= x <= MAX_INT64

  function Min(a: int, b: int): int {
    if a <= b then a else b
  }

  // Go's x / 2, which truncates toward zero.
  function Half(x: int): int {
    if x >= 0 then x / 2 else -((-x) / 2)
  }

  lemma HalfTruncates(x: int)
    ensures if x >= 0 then x - 1 <= 2 * Half(x) <= x else x <= 2 * Half(x) <= x + 1
  {
  }

  // The delay before jitter after n iterations of the loop.
  function Ladder(base: int, cap: int, n: nat): int {
    if n == 0 then Min(base, cap)
    else
      var delay := Ladder(base, cap, n - 1);
      if delay >= Half(cap) then cap else delay * 2
  }

  function Pow2(n: nat): (p: nat)
    ensures p >= 1
  {
    if n == 0 then 1 else 2 * Pow2(n - 1)
  }

  predicate InInt64(x: int) {
    MIN_INT64 <= x <= MAX_INT64
  }

  // Two's complement.
  function Wrap(x: int): (w: int)
    ensures InInt64(w)
  {
    (x + 0x8000_0000_0000_0000) % 0x1_0000_0000_0000_0000 - 0x8000_0000_0000_0000
  }

  lemma WrapIsCongruent(x: int)
    ensures (x - Wrap(x)) % 0x1_0000_0000_0000_0000 == 0
  {
  }

  // n iterations of the loop on int64, from this delay.
  function Saturating(delay: int, cap: int, n: nat): int
    decreases n
  {
    if n == 0 then delay
    else if delay >= Half(cap) then cap
    else Saturating(Wrap(delay * 2), cap, n - 1)
  }

  // time.Duration(float64(delay) * jitter), taking the product over the reals; the conversion
  // truncates toward zero.
  function Jittered(delay: int, jitter: real): int {
    var product := delay as real * jitter;
    if product >= 0.0 then product.Floor else -((-product).Floor)
  }

  // It is the integer next to the product on the side of zero.
  lemma JitteredTruncates(delay: int, jitter: real)
    ensures var product, wait := delay as real * jitter, Jittered(delay, jitter);
            if product >= 0.0 then 0.0 <= wait as real <= product < wait as real + 1.0
            else wait as real - 1.0 < product <= wait as real <= 0.0
  {
  }

  // A drawn number as a factor in [0.5, 1.5); any other stands for one.
  function Factor(drawn: real): (factor: real)
    ensures 0.5 <= factor < 1.5 && (0.5 <= drawn < 1.5 ==> factor == drawn)
  {
    if 0.5 <= drawn < 1.5 then drawn else 1.0
  }

  lemma ScaleBounds(d: real, jitter: real)
    requires d >= 0.0 && 0.5 <= jitter < 1.5
    ensures 0.5 * d <= d * jitter <= 1.5 * d
  {
    assert d * (jitter - 0.5) >= 0.0;
    assert d * (1.5 - jitter) >= 0.0;
  }

  lemma FloorAbove(x: real, low: int)
    requires low as real <= x
    ensures low <= x.Floor
  {
  }

  lemma FloorBelow(x: real, d: int)
    requires x <= 1.5 * d as real
    ensures 2 * x.Floor <= 3 * d
  {
    var w := x.Floor;
    assert (2 * w) as real == 2.0 * w as real;
    assert (3 * d) as real == 3.0 * d as real;
  }

  lemma HalfBelow(delay: int)
    requires delay >= 0
    ensures (delay / 2) as real <= 0.5 * delay as real
  {
    assert 2 * (delay / 2) <= delay;
    assert (2 * (delay / 2)) as real == 2.0 * (delay / 2) as real;
  }

  lemma FloorBetween(product: real, delay: int)
    requires delay >= 0 && 0.5 * delay as real <= product <= 1.5 * delay as real
    ensures delay / 2 <= product.Floor && 2 * product.Floor <= 3 * delay
  {
    HalfBelow(delay);
    FloorAbove(product, delay / 2);
    FloorBelow(product, delay);
  }

  // Jitter neither halves a delay to nothing nor stretches it past one and a half times.
  lemma JitterBounds(delay: int, jitter: real)
    requires delay >= 0 && 0.5 <= jitter < 1.5
    ensures delay / 2 <= Jittered(delay, jitter)
    ensures 2 * Jittered(delay, jitter) <= 3 * delay
  {
    ScaleBounds(delay as real, jitter);
    FloorBetween(delay as real * jitter, delay);
  }

  // Once the ladder has reached its cap it stays there, which is why the loop may break.
  lemma {:induction false} LadderStays(base: int, cap: int, n: nat, m: nat)
    requires cap >= 0 && n <= m && Ladder(base, cap, n) == cap
    ensures Ladder(base, cap, m) == cap
    decreases m
  {
    if n < m {
      LadderStays(base, cap, n, m - 1);
    }
  }

  lemma {:induction false} LadderInRange(base: int, cap: int, n: nat)
    requires 0 <= base && 0 <= cap
    ensures 0 <= Ladder(base, cap, n) <= cap
  {
    if n > 0 {
      LadderInRange(base, cap, n - 1);
    }
  }

  lemma {:induction false} SaturatingFrom(base: int, cap: int, i: nat, m: nat)
    requires 0 <= base && 0 <= cap <= MAX_INT64
    ensures Saturating(Ladder(base, cap, i), cap, m) == Ladder(base, cap, i + m)
    decreases m
  {
    if m > 0 {
      LadderInRange(base, cap, i);
      if Ladder(base, cap, i) >= Half(cap) {
        LadderStays(base, cap, i + 1, i + m);
      } else {
        SaturatingFrom(base, cap, i + 1, m - 1);
      }
    }
  }

  // The doubling never wraps: saturating before the multiply is enough, whatever the cap.
  lemma SaturatingIsLadder(base: int, cap: int, n: nat)
    requires 0 <= base && 0 <= cap <= MAX_INT64
    ensures Saturating(Min(base, cap), cap, n) == Ladder(base, cap, n)
  {
    SaturatingFrom(base, cap, 0, n);
  }

  // Exponential.After, on any base and cap. What converting a product outside int64 gives is up to
  // the platform: `spill`.
  method After(base: int64, cap: int64, attempts: int, jitter: real, spill: int64) returns (wait: int64)
    ensures var n := if attempts < 0 then 0 else attempts;
            var exact := Jittered(Saturating(Min(base as int, cap as int), cap as int, n), jitter);
            if InInt64(exact) then wait as int == exact else wait == spill
  {
    ghost var n: nat := if attempts < 0 then 0 else attempts;
    var delay := if base <= cap then base else cap;
    var i := 0;
    while i < attempts
      invariant 0 <= i <= n
      invariant Saturating(delay as int, cap as int, n - i)
                == Saturating(Min(base as int, cap as int), cap as int, n)
      decreases attempts - i
    {
      if delay as int >= Half(cap as int) {
        delay, i := cap, attempts;
        break;
      }
      delay := Wrap(delay as int * 2) as int64;
      i := i + 1;
    }
    var product := Jittered(delay as int, jitter);
    wait := if InInt64(product) then product as int64 else spill;
  }

  // A longer outage never shortens the delay, and no delay exceeds the cap.
  lemma {:induction false} LadderMonotone(base: int, cap: int, n: nat, m: nat)
    requires 0 < base <= cap && n <= m
    ensures 0 < Ladder(base, cap, n) <= Ladder(base, cap, m) <= cap
    decreases m
  {
    LadderInRange(base, cap, m);
    if n < m {
      LadderMonotone(base, cap, n, m - 1);
    } else if n > 0 {
      LadderMonotone(base, cap, n - 1, n - 1);
    }
  }

  // One doubling of a delay that is, or all but is, the lesser of p and the cap.
  lemma FormulaOnceMore(delay: int, p: int, cap: int)
    requires 0 < delay <= cap && p > 0 && Min(cap, p) <= delay <= Min(cap, p) + 1
    requires delay != Min(cap, p) ==> p == cap - 1 && cap % 2 == 1
    ensures var next := if delay >= Half(cap) then cap else delay * 2;
            && (next == Min(cap, 2 * p) <==> 2 * p != cap - 1)
            && Min(cap, 2 * p) <= next <= Min(cap, 2 * p) + 1
  {
  }

  lemma DoubledPower(base: int, n: nat)
    requires base > 0 && n > 0
    ensures base * Pow2(n) == 2 * (base * Pow2(n - 1)) && base * Pow2(n - 1) > 0
  {
  }

  // The documented formula min(cap, base * 2^n) holds in every case but one: when the doubling
  // lands exactly one below the cap, the loop has already jumped to the cap.
  lemma {:induction false} LadderIsTheFormula(base: int, cap: int, n: nat)
    requires 0 < base <= cap
    ensures Ladder(base, cap, n) == Min(cap, base * Pow2(n)) <==> !(n > 0 && base * Pow2(n) == cap - 1)
    ensures Min(cap, base * Pow2(n)) <= Ladder(base, cap, n) <= Min(cap, base * Pow2(n)) + 1
    ensures cap % 2 == 0 ==> Ladder(base, cap, n) == Min(cap, base * Pow2(n))
  {
    if n > 0 {
      LadderIsTheFormula(base, cap, n - 1);
      LadderMonotone(base, cap, n - 1, n - 1);
      DoubledPower(base, n);
      FormulaOnceMore(Ladder(base, cap, n - 1), base * Pow2(n - 1), cap);
    }
  }

  lemma {:induction false} Pow2Grows(n: nat)
    ensures Pow2(n + 8) == 256 * Pow2(n)
  {
    assert Pow2(n + 4) == 16 * Pow2(n) by {
      assert Pow2(n + 2) == 4 * Pow2(n);
    }
    assert Pow2(n + 6) == 4 * Pow2(n + 4);
  }

  lemma {:induction false} NegativeCapDoubles(base: int, cap: int, n: nat)
    requires cap < 0 < base
    ensures Ladder(base, cap, n) == cap * Pow2(n) && Pow2(n) >= 1
  {
    if n > 0 {
      NegativeCapDoubles(base, cap, n - 1);
      assert cap * Pow2(n) == 2 * (cap * Pow2(n - 1));
      assert cap * Pow2(n - 1) <= cap;
    }
  }

  lemma {:induction false} LadderAtLeastTwo(base: int, cap: int, n: nat)
    requires base >= 2 && cap >= 2
    ensures Ladder(base, cap, n) >= 2
  {
    if n > 0 {
      LadderAtLeastTwo(base, cap, n - 1);
    }
  }

  // A delay of one nanosecond, halved and truncated, is no delay, and a negative one is none either.
  lemma OneNanosecondIsLost(delay: int)
    requires delay <= 1
    ensures Jittered(delay, 0.5) <= 0 && Jittered(1, 0.5) == 0
  {
  }

  lemma JitteredIsPositive(delay: int)
    ensures (forall j: real :: 0.5 <= j < 1.5 ==> Jittered(delay, j) >= 1) <==> delay >= 2
  {
    if delay >= 2 {
      forall j: real | 0.5 <= j < 1.5
        ensures Jittered(delay, j) >= 1
      {
        JitterBounds(delay, j);
      }
    } else {
      OneNanosecondIsLost(delay);
      assert !(Jittered(delay, 0.5) >= 1);
    }
  }

  // A backoff lies in the future, at every number of attempts and for every jitter, exactly when
  // neither the base nor the cap is below two nanoseconds.
  lemma BackoffIsPositive(base: int, cap: int)
    ensures (forall n: nat, j: real :: 0.5 <= j < 1.5 ==> Jittered(Ladder(base, cap, n), j) >= 1)
            <==> base >= 2 && cap >= 2
  {
    if base >= 2 && cap >= 2 {
      forall n: nat, j: real | 0.5 <= j < 1.5
        ensures Jittered(Ladder(base, cap, n), j) >= 1
      {
        LadderAtLeastTwo(base, cap, n);
        JitteredIsPositive(Ladder(base, cap, n));
      }
    } else {
      assert Ladder(base, cap, 0) == Min(base, cap);
      OneNanosecondIsLost(Min(base, cap));
      assert !(Jittered(Ladder(base, cap, 0), 0.5) >= 1);
    }
  }

  lemma Pow2Of64()
    ensures Pow2(64) == 0x1_0000_0000_0000_0000
  {
    Pow2Grows(0); Pow2Grows(8); Pow2Grows(16); Pow2Grows(24);
    Pow2Grows(32); Pow2Grows(40); Pow2Grows(48); Pow2Grows(56);
  }

  // "Provable for any Cap" is true of the caps that are not negative, and only of those: with a
  // negative one, which the configuration check lets through, the doubling leaves int64.
  lemma LadderFitsExactly(base: int, cap: int)
    requires 0 < base <= MAX_INT64 && InInt64(cap)
    ensures (forall n: nat :: InInt64(Ladder(base, cap, n))) <==> cap >= 0
  {
    if cap >= 0 {
      forall n: nat
        ensures InInt64(Ladder(base, cap, n))
      {
        LadderInRange(base, cap, n);
      }
    } else {
      NegativeCapDoubles(base, cap, 64);
      Pow2Of64();
      assert cap * Pow2(64) <= -0x1_0000_0000_0000_0000;
      assert !InInt64(Ladder(base, cap, 64));
    }
  }
}
