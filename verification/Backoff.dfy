/** The retry delay of `record_mirror_failure` (src/persistence.rs) and its sum over a budget. */
module Backoff {

  const MAX_ATTEMPTS: nat := 100

  function Least(a: nat, b: nat): nat {
    if a <= b then a else b
  }

  function ShiftLeftOne(n: nat): nat {
    if n == 0 then 1 else 2 * ShiftLeftOne(n - 1)
  }

  /** `LEAST(3600, (1 << LEAST(attempts, 11)))`, in seconds. */
  function DelaySeconds(attempts: nat): nat {
    Least(3600, ShiftLeftOne(Least(attempts, 11)))
  }

  /** What the first `n` failures of one entry add up to. */
  function TotalDelay(n: nat): nat {
    if n == 0 then 0 else TotalDelay(n - 1) + DelaySeconds(n - 1)
  }

  lemma {:induction false} ShiftMonotone(a: nat, b: nat)
    requires a <= b
    ensures ShiftLeftOne(a) <= ShiftLeftOne(b)
  {
    if a < b {
      ShiftMonotone(a, b - 1);
    }
  }

  lemma ShiftOfEleven()
    ensures ShiftLeftOne(11) == 2048
  {
  }

  /** The one-hour cap is never reached: the exponent cap of 11 binds first. */
  lemma CapNeverBinds(attempts: nat)
    ensures DelaySeconds(attempts) == ShiftLeftOne(Least(attempts, 11)) <= 2048
  {
  }

  lemma DelayNondecreasing(a: nat, b: nat)
    requires a <= b
    ensures DelaySeconds(a) <= DelaySeconds(b)
  {
    ShiftMonotone(Least(a, 11), Least(b, 11));
  }

  /** The delays double eleven times from one second and then stay at 2048 seconds. */
  lemma {:induction false} TotalDelayClosedForm(n: nat)
    ensures n <= 11 ==> TotalDelay(n) == ShiftLeftOne(n) - 1
    ensures n >= 11 ==> TotalDelay(n) == 2047 + 2048 * (n - 11)
  {
    ShiftOfEleven();
    if n > 0 {
      TotalDelayClosedForm(n - 1);
      CapNeverBinds(n - 1);
    }
  }

  /** The whole budget of 100 failures schedules 184319 seconds of waiting at most. */
  lemma WholeBudget(n: nat)
    requires n <= MAX_ATTEMPTS
    ensures TotalDelay(n) <= 184319
    ensures n == MAX_ATTEMPTS ==> TotalDelay(n) == 184319
  {
    TotalDelayClosedForm(n);
    if n < 11 {
      ShiftOfEleven();
      ShiftMonotone(n, 11);
    }
  }
}
