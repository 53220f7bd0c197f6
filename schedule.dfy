/** The unlock calculator: `calculate_amount` of src/processor.rs (the intended version) and of
    src/lib.rs (the version the crate root compiles). Overflow and division by zero abort the
    program, written as `Err(Panic)`. */
module Schedule {
  import opened Types
  import opened Errors

  const U64_MODULUS: int := 0x1_0000_0000_0000_0000
  const U128_MODULUS: int := 0x1_0000_0000_0000_0000_0000_0000_0000_0000

  /** The narrowing cast `as u64`: keeps the low 64 bits. */
  function TruncateU64(x: int): u64 {
    x % U64_MODULUS
  }

  lemma MulMonotone(a: nat, x: nat, y: nat)
    ensures x <= y ==> a * x <= a * y
  {
    if x <= y {
      assert a * y == a * x + a * (y - x);
    }
  }

  lemma DivMonotone(x: nat, y: nat, d: nat)
    requires x <= y && d > 0
    ensures x / d <= y / d
  {
    var qx, qy := x / d, y / d;
    assert d * qx <= x;
    assert y < d * qy + d;
    MulMonotone(d, qy + 1, qx);
    assert d * (qy + 1) == d * qy + d;
  }

  lemma MulDivCancel(a: nat, d: nat)
    requires d > 0
    ensures a * d / d == a
  {
    var q := a * d / d;
    assert a * d == d * q + (a * d) % d;
    MulMonotone(d, q + 1, a);
    MulMonotone(d, a + 1, q);
    assert d * (q + 1) == d * q + d;
    assert d * (a + 1) == d * a + d;
  }

  lemma DivAtMost(x: nat, d: nat)
    requires d > 0
    ensures x / d <= x
  {
    var q := x / d;
    assert d * q <= x;
    MulMonotone(q, 1, d);
  }

  lemma ModSmall(x: nat, m: nat)
    requires x < m
    ensures x % m == x
  {
    var q := x / m;
    assert x == m * q + x % m;
    MulMonotone(m, 1, q);
  }

  /** Both u128 factors come from u64 values, so the wide product never overflows. */
  lemma WideProductFits(a: u64, b: u64)
    ensures a * b < U128_MODULUS
  {
    MulMonotone(a, b, U64_MAX);
    MulMonotone(U64_MAX, a, U64_MAX);
    assert U64_MAX * U64_MAX < U128_MODULUS;
  }

  /** With `passed <= duration` the quotient is at most `amount`, so narrowing it back to u64
      loses nothing; with `passed == duration` it is exactly `amount`. */
  lemma NarrowingIsLossless(amount: u64, passed: u64, duration: u64)
    requires 0 < duration && passed <= duration
    ensures amount * passed / duration <= amount
    ensures TruncateU64(amount * passed / duration) == amount * passed / duration
    ensures passed == duration ==> amount * passed / duration == amount
  {
    var product := amount * passed;
    MulMonotone(amount, passed, duration);
    DivMonotone(product, amount * duration, duration);
    MulDivCancel(amount, duration);
    ModSmall(product / duration, U64_MODULUS);
  }

  /** `calculate_amount` (src/processor.rs): nothing before the cliff, then linear in the time
      since `start`, capped at `vestingAmount` once `duration` has passed. */
  function CalculateAmount(start: u64, cliff: u64, duration: u64, vestingAmount: u64, now: u64): (r: Result<u64, ProgramError>)
    ensures r.Err? <==> start + cliff > U64_MAX || (start + cliff <= now && duration == 0)
    ensures r.Err? ==> r.error == Panic
    ensures r.Ok? && start + cliff > now ==> r.value == 0
    ensures r.Ok? ==> r.value <= vestingAmount
    ensures r.Ok? && start + cliff <= now && now - start >= duration ==> r.value == vestingAmount
    ensures r.Ok? && start + cliff <= now && now - start <= duration ==> r.value == vestingAmount * (now - start) / duration
  {
    if start + cliff > U64_MAX then Err(Panic)
    else if start + cliff > now then Ok(0)
    else
      var passed: u64 := if now - start > duration then duration else now - start;
      if duration == 0 then Err(Panic)
      else
        NarrowingIsLossless(vestingAmount, passed, duration);
        Ok(TruncateU64(vestingAmount * passed / duration))
  }

  /** Within the schedule the linear part grows with the time passed. */
  lemma LinearPartMonotone(amount: u64, p1: nat, p2: nat, duration: nat)
    requires p1 <= p2 && duration > 0
    ensures amount * p1 / duration <= amount * p2 / duration
  {
    MulMonotone(amount, p1, p2);
    DivMonotone(amount * p1, amount * p2, duration);
  }

  /** The unlocked amount never decreases as time goes on. */
  lemma {:induction false} CalculateAmountMonotone(start: u64, cliff: u64, duration: u64, vestingAmount: u64, now1: u64, now2: u64)
    requires now1 <= now2
    requires CalculateAmount(start, cliff, duration, vestingAmount, now1).Ok?
    requires CalculateAmount(start, cliff, duration, vestingAmount, now2).Ok?
    ensures CalculateAmount(start, cliff, duration, vestingAmount, now1).value
         <= CalculateAmount(start, cliff, duration, vestingAmount, now2).value
  {
    if start + cliff <= now1 && now2 - start < duration {
      LinearPartMonotone(vestingAmount, now1 - start, now2 - start, duration);
    }
  }

  /** The unit test of src/processor.rs. */
  lemma CalculateAmountVectors()
    ensures CalculateAmount(1000, 20, 100, 1000, 1000) == Ok(0)
    ensures CalculateAmount(1000, 20, 100, 1000, 1010) == Ok(0)
    ensures CalculateAmount(1000, 20, 100, 1000, 1020) == Ok(200)
    ensures CalculateAmount(1000, 20, 100, 1000, 1090) == Ok(900)
    ensures CalculateAmount(1000, 20, 100, 1000, 1100) == Ok(1000)
    ensures CalculateAmount(1000, 20, 100, 1000, 1200) == Ok(1000)
  {
  }

  /** `calculate_amount` (src/lib.rs): the same cliff test, then `amount * (now - start) /
      duration` in plain u64, with no cap at `duration`. */
  function CalculateAmountLib(start: u64, cliff: u64, duration: u64, vestingAmount: u64, now: u64): (r: Result<u64, ProgramError>)
    ensures r.Err? <==> start + cliff > U64_MAX
                        || (start + cliff <= now && (vestingAmount * (now - start) > U64_MAX || duration == 0))
    ensures r.Err? ==> r.error == Panic
    ensures r.Ok? && start + cliff > now ==> r.value == 0
    ensures r.Ok? && start + cliff <= now ==> r.value == vestingAmount * (now - start) / duration
  {
    if start + cliff > U64_MAX then Err(Panic)
    else if start + cliff > now then Ok(0)
    else
      var timePassed: u64 := now - start;
      var product := vestingAmount * timePassed;
      if product > U64_MAX then Err(Panic)
      else if duration == 0 then Err(Panic)
      else
        DivAtMost(product, duration);
        Ok(product / duration)
  }

  /** Up to the end of the schedule, whenever the compiled version does not abort it unlocks
      what the intended version unlocks. */
  lemma LibAgreesWithinDuration(start: u64, cliff: u64, duration: u64, vestingAmount: u64, now: u64)
    requires start + cliff <= now ==> now - start <= duration
    requires CalculateAmountLib(start, cliff, duration, vestingAmount, now).Ok?
    ensures CalculateAmount(start, cliff, duration, vestingAmount, now)
         == CalculateAmountLib(start, cliff, duration, vestingAmount, now)
  {
    if start + cliff <= now {
      NarrowingIsLossless(vestingAmount, now - start, duration);
    }
  }

  /** Wherever neither version aborts, the compiled version unlocks at least what the intended
      version unlocks: the same before the cliff and within the duration, and at least
      `vestingAmount` after it. */
  lemma LibAtLeastIntended(start: u64, cliff: u64, duration: u64, vestingAmount: u64, now: u64)
    requires CalculateAmount(start, cliff, duration, vestingAmount, now).Ok?
    requires CalculateAmountLib(start, cliff, duration, vestingAmount, now).Ok?
    ensures CalculateAmountLib(start, cliff, duration, vestingAmount, now).value
         >= CalculateAmount(start, cliff, duration, vestingAmount, now).value
  {
    if start + cliff <= now && now - start > duration {
      LinearPartMonotone(vestingAmount, duration, now - start, duration);
      MulDivCancel(vestingAmount, duration);
    }
  }

  /** Once twice the duration has passed, the compiled version unlocks at least twice the
      vested amount. */
  lemma LibExceedsAmountAfterDuration(start: u64, cliff: u64, duration: u64, vestingAmount: u64, now: u64)
    requires start + cliff <= now && now - start >= 2 * duration
    requires CalculateAmountLib(start, cliff, duration, vestingAmount, now).Ok?
    ensures CalculateAmountLib(start, cliff, duration, vestingAmount, now).value >= 2 * vestingAmount
  {
    var twice: nat := 2 * vestingAmount;
    MulMonotone(vestingAmount, 2 * duration, now - start);
    assert vestingAmount * (2 * duration) == twice * duration;
    DivMonotone(twice * duration, vestingAmount * (now - start), duration);
    MulDivCancel(twice, duration);
  }

  /** The test vector (1000, 20, 100, 1000, 1200) run through the compiled version: twice the
      vested amount, where the intended version gives exactly the vested amount. */
  lemma LibOverUnlockExample()
    ensures CalculateAmountLib(1000, 20, 100, 1000, 1200) == Ok(2000)
    ensures CalculateAmount(1000, 20, 100, 1000, 1200) == Ok(1000)
  {
  }

  /** A product that does not fit in u64 aborts the compiled version; the intended version's
      u128 product gives the linear amount. */
  lemma LibProductOverflowExample()
    ensures CalculateAmountLib(0, 0, 4, 0x8000_0000_0000_0000, 2) == Err(Panic)
    ensures CalculateAmount(0, 0, 4, 0x8000_0000_0000_0000, 2) == Ok(0x4000_0000_0000_0000)
  {
  }
}
