/** Back-off between reconnect attempts (pkg/holonrpc/client.go, reconnectDelay
    and the dialling loop of reconnectLoop). Durations are whole nanoseconds. */
module Backoff {

  const MILLISECOND: nat := 1_000_000
  const MIN_DELAY: nat := 500 * MILLISECOND
  const MAX_DELAY: nat := 30_000 * MILLISECOND

  /** A jitter sample, as rand.Float64() scaled by the 0.1 jitter factor. */
  predicate IsJitter(j: real) {
    0.0 <= j < 0.1
  }

  function Pow2(n: nat): (p: nat)
    ensures p >= 1
  {
    if n == 0 then 1 else 2 * Pow2(n - 1)
  }

  function Base(attempt: nat): nat {
    var b := MIN_DELAY * Pow2(attempt);
    if b > MAX_DELAY then MAX_DELAY else b
  }

  /** The conversion to a Duration drops the fraction. */
  function Scaled(base: nat, jitter: real): int {
    (base as real * (1.0 + jitter)).Floor
  }

  /** reconnectDelay */
  function Delay(attempt: nat, jitter: real): int {
    Scaled(Base(attempt), jitter)
  }

  lemma {:induction false} Pow2Monotone(m: nat, n: nat)
    requires m <= n
    ensures Pow2(m) <= Pow2(n)
    decreases n
  {
    if m < n {
      Pow2Monotone(m, n - 1);
    }
  }

  lemma Pow2Small()
    ensures Pow2(5) == 32 && Pow2(6) == 64
  {
    assert Pow2(2) == 4;
    assert Pow2(4) == 16;
  }

  /** The base is 500 ms doubled with each attempt, never shrinks, and is 30 s
      exactly from attempt 6 on. */
  lemma BaseSaturates(m: nat, n: nat)
    requires m <= n
    ensures Base(m) <= Base(n) <= 30_000_000_000
    ensures Base(n) == 30_000_000_000 <==> n >= 6
    ensures n < 6 ==> Base(n) == 500_000_000 * Pow2(n)
  {
    Pow2Monotone(m, n);
    Pow2Small();
    if n >= 6 {
      Pow2Monotone(6, n);
    } else {
      Pow2Monotone(n, 5);
    }
  }

  lemma JitterShare(b: real, jitter: real)
    requires b >= 0.0 && IsJitter(jitter)
    ensures 0.0 <= b * jitter <= b * 0.1
  {
  }

  lemma FloorBounds(x: real, b: nat)
    requires b as real <= x <= b as real * 1.1
    ensures b <= x.Floor && 10 * x.Floor <= 11 * b
  {
  }

  lemma ScaledBounds(base: nat, jitter: real)
    requires IsJitter(jitter)
    ensures base <= Scaled(base, jitter) && 10 * Scaled(base, jitter) <= 11 * base
  {
    var b := base as real;
    JitterShare(b, jitter);
    assert b * (1.0 + jitter) == b + b * jitter;
    FloorBounds(b * (1.0 + jitter), base);
  }

  /** Every delay lies between the base and 1.1 times the base. */
  lemma DelayBounds(attempt: nat, jitter: real)
    requires IsJitter(jitter)
    ensures Base(attempt) <= Delay(attempt, jitter)
    ensures 10 * Delay(attempt, jitter) <= 11 * Base(attempt)
  {
    ScaledBounds(Base(attempt), jitter);
  }

  /** Total of the bases of the first n attempts. */
  function Total(n: nat): nat {
    if n == 0 then 0 else Total(n - 1) + Base(n - 1)
  }

  /** S(n): 500 (2^n - 1) ms up to the sixth attempt, then 30 s more for each. */
  function ClosedForm(n: nat): nat {
    if n <= 6 then MIN_DELAY * (Pow2(n) - 1) else 31_500 * MILLISECOND + MAX_DELAY * (n - 6)
  }

  lemma ClosedFormStep(n: nat)
    ensures ClosedForm(n + 1) == ClosedForm(n) + Base(n)
  {
    var p := Pow2(n);
    BaseSaturates(n, n);
    if n < 6 {
      assert Base(n) == MIN_DELAY * p;
      assert ClosedForm(n + 1) == MIN_DELAY * (2 * p - 1);
      assert MIN_DELAY * (2 * p - 1) == MIN_DELAY * (p - 1) + MIN_DELAY * p;
    } else if n == 6 {
      Pow2Small();
      assert ClosedForm(6) == MIN_DELAY * 63;
    } else {
      assert MAX_DELAY * (n + 1 - 6) == MAX_DELAY * (n - 6) + MAX_DELAY;
    }
  }

  lemma {:induction false} TotalClosedForm(n: nat)
    ensures Total(n) == ClosedForm(n)
  {
    if n > 0 {
      TotalClosedForm(n - 1);
      ClosedFormStep(n - 1);
    }
  }

  /** What one turn of the dialling loop meets: the client closed or connected
      under the lock, a dial that succeeds, or one that fails, and then a wait
      that may be cut short by the loop's context. */
  datatype Turn = SeesClosed | SeesConnected | DialSucceeds | DialFails(jitter: real, cancelled: bool)

  predicate WaitsOut(turn: Turn) {
    turn.DialFails? && !turn.cancelled
  }

  /** One dialling phase. Returns how many waits it sat out, the time they took,
      and whether the loop ends with it. */
  method Redial(turns: seq<Turn>) returns (attempt: nat, slept: int, ends: bool)
    requires forall i :: 0 <= i < |turns| && turns[i].DialFails? ==> IsJitter(turns[i].jitter)
    ensures attempt <= |turns| && forall i :: 0 <= i < attempt ==> WaitsOut(turns[i])
    ensures attempt < |turns| ==> !WaitsOut(turns[attempt])
    ensures ends <==> attempt < |turns| && (turns[attempt].SeesClosed? || turns[attempt].DialFails?)
    ensures ClosedForm(attempt) <= slept && 10 * slept <= 11 * ClosedForm(attempt)
  {
    attempt, slept, ends := 0, 0, false;
    while attempt < |turns|
      invariant attempt <= |turns| && !ends && forall i :: 0 <= i < attempt ==> WaitsOut(turns[i])
      invariant Total(attempt) <= slept && 10 * slept <= 11 * Total(attempt)
    {
      match turns[attempt] {
        case SeesClosed =>
          ends := true;
          break;
        case SeesConnected =>
          break;
        case DialSucceeds =>
          break;
        case DialFails(jitter, cancelled) =>
          DelayBounds(attempt, jitter);
          var delay := Delay(attempt, jitter);
          if cancelled {
            ends := true;
            break;
          }
          attempt := attempt + 1;
          slept := slept + delay;
      }
    }
    TotalClosedForm(attempt);
  }
}
