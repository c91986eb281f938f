/** How long a failed attempt waits, in microseconds. */
module Backoff {

  function PowerOfTwo(n: nat): nat {
    if n == 0 then 1 else 2 * PowerOfTwo(n - 1)
  }

  function BackoffFor(failures: int, maxBackoff: nat): nat {
    var n := if failures < 0 then 0 else failures;
    if n > 30 then maxBackoff
    else
      var delay := PowerOfTwo(n) * 1_000_000;
      if delay > maxBackoff then maxBackoff else delay
  }

  lemma {:induction false} PowersGrow(a: nat, b: nat)
    requires a <= b
    ensures 1 <= PowerOfTwo(a) <= PowerOfTwo(b)
  {
    if b == 0 {
    } else if a < b {
      PowersGrow(a, b - 1);
    } else {
      PowersGrow(a - 1, a - 1);
    }
  }

  /** More failures never wait less, nothing waits longer than the cap, and nothing is retried at once. */
  lemma BackoffIsMonotone(a: int, b: int, maxBackoff: nat)
    requires a <= b
    ensures BackoffFor(a, maxBackoff) <= BackoffFor(b, maxBackoff) <= maxBackoff
    ensures BackoffFor(a, maxBackoff) > 0 <==> maxBackoff > 0
  {
    var n, m := if a < 0 then 0 else a, if b < 0 then 0 else b;
    PowersGrow(n, m);
  }
}
