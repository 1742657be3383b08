// The poller's exponential backoff on 64-bit nanosecond durations.
module Backoff {
  import opened Common

  const SECOND := 1_000_000_000

  function Pow2(n: nat): (p: int)
    ensures 1 <= p
  {
    if n == 0 then 1 else 2 * Pow2(n - 1)
  }

  // base << attempt: the low 64 bits of the product.
  function Shifted(base: int, attempt: nat): int {
    Wrap64(base * Pow2(attempt))
  }

  // What the doubling is for: base, 2 * base, 4 * base, ... capped at max.
  function Ideal(base: int, max: int, attempt: nat): int {
    Min(base * Pow2(attempt), max)
  }

  // The delay has not overflowed, or overflowed to bits that change nothing.
  predicate DoublingHolds(base: int, max: int, attempt: nat) {
    || base * Pow2(attempt) < TWO_63
    || max <= Shifted(base, attempt)
    || (Shifted(base, attempt) <= 0 && base == max)
  }

  // nextRetry; draw stands for the random source, whose bound must be positive.
  method NextRetry(base: int, max: int, attempt: nat, now: int, draw: nat) returns (at: int, backoff: int)
    requires 0 < base <= max < TWO_63 / 2
    ensures 0 < backoff <= max
    ensures now + backoff <= at <= now + backoff + backoff / 2 && 2 * (at - now) <= 3 * max && at - now < TWO_63
    ensures draw <= backoff / 2 ==> at == now + backoff + draw
    ensures backoff == Ideal(base, max, attempt) <==> DoublingHolds(base, max, attempt)
    ensures base * Pow2(attempt) < TWO_63 ==> backoff == Ideal(base, max, attempt)
    ensures 64 <= attempt ==> backoff == base
  {
    backoff := Shifted(base, attempt);
    if backoff > max {
      backoff := max;
    }
    if backoff <= 0 {
      backoff := base;
    }
    var half := backoff / 2 + 1;
    var jitter := draw % half;
    JitterFits(backoff, draw);
    at := now + (backoff + jitter);
    ShiftedExact(base, attempt);
    if 64 <= attempt {
      ShiftedOut(base, attempt);
    }
  }

  lemma JitterFits(backoff: int, draw: nat)
    requires 0 <= backoff
    ensures 0 <= draw % (backoff / 2 + 1) <= backoff / 2
    ensures draw <= backoff / 2 ==> draw % (backoff / 2 + 1) == draw
  {
  }

  lemma ShiftedExact(base: int, attempt: nat)
    requires 0 < base
    ensures 0 < base * Pow2(attempt)
    ensures base * Pow2(attempt) < TWO_63 ==> Shifted(base, attempt) == base * Pow2(attempt)
  {
    Positive(base, Pow2(attempt));
    InWord(base * Pow2(attempt));
  }

  lemma Positive(a: int, b: int)
    requires 0 < a && 0 < b
    ensures 0 < a * b
  {
  }

  lemma InWord(x: int)
    requires -TWO_63 <= x
    ensures x < TWO_63 ==> Wrap64(x) == x
  {
  }

  lemma {:induction false} PowersAdd(m: nat, n: nat)
    ensures Pow2(m + n) == Pow2(m) * Pow2(n)
  {
    if m > 0 {
      PowersAdd(m - 1, n);
      assert Pow2(m + n) == 2 * Pow2(m - 1 + n);
      assert 2 * (Pow2(m - 1) * Pow2(n)) == (2 * Pow2(m - 1)) * Pow2(n);
    }
  }

  lemma Word()
    ensures Pow2(64) == TWO_64
  {
    assert Pow2(8) == 256;
    PowersAdd(8, 8);
    PowersAdd(16, 16);
    PowersAdd(32, 32);
  }

  lemma ShiftedOut(base: int, attempt: nat)
    requires 64 <= attempt
    ensures Shifted(base, attempt) == 0
  {
    Word();
    PowersAdd(64, attempt - 64);
    var k := base * Pow2(attempt - 64);
    assert base * Pow2(attempt) == TWO_64 * k by {
      assert base * (TWO_64 * Pow2(attempt - 64)) == TWO_64 * (base * Pow2(attempt - 64));
    }
    WholeWords(k);
  }

  lemma WholeWords(k: int)
    ensures Wrap64(TWO_64 * k) == 0
  {
    assert (TWO_64 * k + TWO_63) % TWO_64 == TWO_63;
  }

  lemma {:induction false} PowersGrow(m: nat, n: nat)
    requires m <= n
    ensures Pow2(m) <= Pow2(n)
  {
    if m < n {
      PowersGrow(m, n - 1);
    }
  }

  // Until the product overflows, delays never shrink from one attempt to the
  // next and stay at the cap once they reach it.
  lemma DelaysGrow(base: int, max: int, m: nat, n: nat)
    requires 0 < base <= max && m <= n
    ensures Ideal(base, max, m) <= Ideal(base, max, n)
    ensures Ideal(base, max, m) == max ==> Ideal(base, max, n) == max
  {
    PowersGrow(m, n);
    Scales(base, Pow2(m), Pow2(n));
  }

  lemma Scales(base: int, x: int, y: int)
    requires 0 < base && x <= y
    ensures base * x <= base * y
  {
  }

  // Every delay the poller asks for before dead-lettering is the capped doubling
  // when the last of them does not overflow.
  lemma NoOverflowBeforeDeadLetter(base: int, max: int, maxRetries: nat, retryCount: nat)
    requires 0 < base <= max && retryCount + 1 < maxRetries
    requires base * Pow2(maxRetries - 2) < TWO_63
    ensures DoublingHolds(base, max, retryCount)
  {
    PowersGrow(retryCount, maxRetries - 2);
    Scales(base, Pow2(retryCount), Pow2(maxRetries - 2));
  }

  // With the default two seconds and two minutes the doubling is right up to the
  // thirty-third attempt and then falls back to two seconds.
  lemma DefaultsFailAtAttempt33(attempt: nat)
    requires attempt <= 33
    ensures DoublingHolds(2 * SECOND, 120 * SECOND, attempt) <==> attempt < 33
    ensures Shifted(2 * SECOND, 33) <= 0
  {
    if attempt < 33 {
      Power32();
      PowersGrow(attempt, 32);
      Scales(2 * SECOND, Pow2(attempt), Pow2(32));
    } else {
      ShiftedAt33();
    }
  }

  lemma Power32()
    ensures Pow2(32) == 0x1_0000_0000
  {
    assert Pow2(8) == 256;
    PowersAdd(8, 8);
    PowersAdd(16, 16);
  }

  lemma ShiftedAt33()
    ensures Shifted(2 * SECOND, 33) <= 0 && TWO_63 <= 2 * SECOND * Pow2(33)
  {
    Power32();
    var x := 2 * SECOND * Pow2(33);
    assert x == 17_179_869_184_000_000_000;
    assert (x + TWO_63) % TWO_64 == x + TWO_63 - TWO_64;
  }
}
