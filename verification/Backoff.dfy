/** The two exponential back-off computations, with Go's int64 arithmetic. */
module Backoff {
  import opened GoInt

  const MILLISECOND: int := 1_000_000
  const SECOND: int := 1_000_000_000

  /** Wall-clock nanoseconds to whole milliseconds since the epoch. */
  function UnixMilli(ns: int): int {
    ns / MILLISECOND
  }

  /** Delay before attempt `r + 1` of a message, in nanoseconds, as computed. */
  function BackoffNs(r: nat): int {
    var b := Wrap64(Shl1(r) * SECOND);
    if b > 60 * SECOND then 60 * SECOND else b
  }

  method ComputeBackoff(retries: nat) returns (backoff: int)
    ensures backoff == BackoffNs(retries)
    ensures retries <= 33 ==> backoff == IntendedSeconds(retries) * SECOND
  {
    backoff := Wrap64(Shl1(retries) * SECOND);
    if backoff > 60 * SECOND {
      backoff := 60 * SECOND;
    }
    if retries <= 33 {
      BackoffExactUpTo33(retries);
    }
  }

  /** What the comment on that code promises: 2^r seconds capped at 60. */
  function IntendedSeconds(r: nat): int {
    Min(Pow2(r), 60)
  }

  /** The retry's new NotBefore, and its score in the queue. */
  function NextAttempt(clock: int, r: nat): int {
    UnixMilli(clock + BackoffNs(r))
  }

  lemma BackoffExactUpTo33(r: nat)
    requires r <= 33
    ensures BackoffNs(r) == IntendedSeconds(r) * SECOND
  {
    Pow2Monotonic(r, 33);
    Pow2Table();
  }

  lemma BackoffNonDecreasing(r: nat, q: nat)
    requires r <= q <= 33
    ensures BackoffNs(r) <= BackoffNs(q)
  {
    BackoffExactUpTo33(r);
    BackoffExactUpTo33(q);
    Pow2Monotonic(r, q);
  }

  lemma BackoffVanishes(r: nat)
    requires r >= 55
    ensures BackoffNs(r) == 0
  {
    if r < 64 {
      Pow2Split(55, r - 55);
      Pow2Table();
      var k := Pow2(r - 55);
      assert Pow2(r) * SECOND == 0 + (1953125 * k) * TWO_64;
      Wrap64Congruent(0, 1953125 * k);
      Wrap64Mul(Pow2(r), SECOND);
    }
  }

  /** The retry counts whose delay comes out right. */
  predicate BackoffSound(r: nat) {
    r <= 33 || r in {37, 41, 42, 45, 47, 50, 51, 53}
  }

  lemma BackoffExact(r: nat)
    ensures BackoffNs(r) == IntendedSeconds(r) * SECOND <==> BackoffSound(r)
  {
    if r <= 33 {
      BackoffExactUpTo33(r);
    } else {
      Pow2Monotonic(6, r);
      Pow2Table();
      if r >= 55 {
        BackoffVanishes(r);
      } else {
        BackoffIsFolded(r);
        FoldedTable(r);
      }
    }
  }

  /** 2^r seconds in int64 nanoseconds, by repeated doubling with wrap-around. */
  function Folded(r: nat): int
    requires r >= 33
  {
    if r == 33 then 0x2_0000_0000 * SECOND
    else
      var t := 2 * Folded(r - 1);
      if t >= TWO_63 then t - TWO_64 else if t < -TWO_63 then t + TWO_64 else t
  }

  lemma {:induction false} FoldedIsWrapped(r: nat)
    requires r >= 33
    ensures Folded(r) == Wrap64(Pow2(r) * SECOND)
  {
    if r == 33 {
      Pow2Table();
    } else {
      FoldedIsWrapped(r - 1);
      Wrap64Mul(Pow2(r - 1) * SECOND, 2);
      assert Pow2(r) * SECOND == Pow2(r - 1) * SECOND * 2;
    }
  }

  lemma BackoffIsFolded(r: nat)
    requires 33 <= r < 64
    ensures BackoffNs(r) == Min(Folded(r), 60 * SECOND)
  {
    FoldedIsWrapped(r);
    Wrap64Mul(Pow2(r), SECOND);
  }

  lemma FoldedTable(r: nat)
    requires 34 <= r < 55
    ensures Folded(r) >= 60 * SECOND <==> BackoffSound(r)
  {
    assert Folded(34) == -1266874889709551616;
    assert Folded(35) == -2533749779419103232;
    assert Folded(36) == -5067499558838206464;
    assert Folded(37) == 8311744956033138688;
    assert Folded(38) == -1823254161643274240;
    assert Folded(39) == -3646508323286548480;
    assert Folded(40) == -7293016646573096960;
    assert Folded(41) == 3860710780563357696;
    assert Folded(42) == 7721421561126715392;
    assert Folded(43) == -3003900951456120832;
    assert Folded(44) == -6007801902912241664;
    assert Folded(45) == 6431140267885068288;
    assert Folded(46) == -5584463537939415040;
    assert Folded(47) == 7277816997830721536;
    assert Folded(48) == -3891110078048108544;
    assert Folded(49) == -7782220156096217088;
    assert Folded(50) == 2882303761517117440;
    assert Folded(51) == 5764607523034234880;
    assert Folded(52) == -6917529027641081856;
    assert Folded(53) == 4611686018427387904;
    assert Folded(54) == -9223372036854775808;
  }

  /** Whole milliseconds: adding a back-off moves the millisecond clock by exactly that much. */
  lemma NextAttemptExact(clock: int, r: nat)
    requires r <= 33
    ensures NextAttempt(clock, r) == UnixMilli(clock) + 1000 * IntendedSeconds(r)
  {
    BackoffExactUpTo33(r);
  }

  const LAST_STRANDING_CLOCK: int := 2_533_749_779_419_103_232 // April 2050, in nanoseconds

  /** The 35th failure of a message gives it a due time before 1970. */
  lemma ThirtyFifthRetryIsNegative(clock: int)
    ensures NextAttempt(clock, 35) < 0 <==> clock < LAST_STRANDING_CLOCK
  {
    BackoffIsFolded(35);
    assert Folded(34) == -1266874889709551616;
    assert BackoffNs(35) == -LAST_STRANDING_CLOCK;
  }

  /** Sum of the first n intended delays, in seconds. */
  function TotalSeconds(n: nat): (r: nat) {
    if n == 0 then 0 else TotalSeconds(n - 1) + IntendedSeconds(n)
  }

  lemma {:induction false} TotalSecondsClosedForm(n: nat)
    ensures n <= 5 ==> TotalSeconds(n) == Pow2(n + 1) - 2
    ensures n >= 5 ==> TotalSeconds(n) == 62 + 60 * (n - 5)
  {
    if n > 0 {
      TotalSecondsClosedForm(n - 1);
      if n <= 5 {
        Pow2Monotonic(n, 5);
        Pow2Table();
        assert Pow2(n + 1) == 2 * Pow2(n);
      } else {
        Pow2Monotonic(6, n);
        Pow2Table();
      }
      if n == 5 {
        Pow2Table();
      }
    }
  }

  // --- connecting to Redis at start-up ---

  const DIAL_CAP: int := 30 * SECOND

  /** Sleep after failed dial number `i`, in nanoseconds, for a base of `d` milliseconds. */
  function DialDelay(d: int, i: nat): (r: int)
    ensures r <= DIAL_CAP
  {
    var t := Wrap64(Wrap64(d * Shl1(i)) * MILLISECOND);
    if t > DIAL_CAP then DIAL_CAP else t
  }

  /** The exact delay before capping, in nanoseconds. */
  function DialProduct(d: int, i: nat): int {
    d * Pow2(i) * MILLISECOND
  }

  lemma DialDelayIsOneTruncation(d: int, i: nat)
    ensures DialDelay(d, i) == Min(Wrap64(DialProduct(d, i)), DIAL_CAP)
  {
    var p := Pow2(i);
    if i < 64 {
      Wrap64Mul(p, d);
      assert d * Wrap64(p) == Wrap64(p) * d && p * d == d * p;
      Wrap64Mul(d * p, MILLISECOND);
      Wrap64Mul(d * Wrap64(p), MILLISECOND);
      assert Wrap64(Wrap64(d * Wrap64(p)) * MILLISECOND) == Wrap64(Wrap64(d * p) * MILLISECOND);
    } else {
      ShiftedOut(d, i);
    }
  }

  /** From 64 bits on the shift leaves nothing, and so would the exact product after truncation. */
  lemma ShiftedOut(d: int, i: nat)
    requires i >= 64
    ensures DialDelay(d, i) == 0 && DialProduct(d, i) % TWO_64 == 0 && Wrap64(DialProduct(d, i)) == 0
  {
    Pow2Split(64, i - 64);
    Pow2Split(32, 32);
    Pow2Table();
    assert Pow2(32) == 0x1_0000_0000;
    assert Pow2(i) == TWO_64 * Pow2(i - 64);
    var k := FactorOut(d, Pow2(i - 64));
    DivModUnique(DialProduct(d, i), k, 0);
    Wrap64Congruent(0, k);
    assert d * Shl1(i) == 0;
  }

  lemma FactorOut(d: int, p: nat) returns (k: int)
    ensures d * (TWO_64 * p) * MILLISECOND == k * TWO_64
  {
    k := d * p * MILLISECOND;
    assert d * (TWO_64 * p) == (d * p) * TWO_64;
  }

  /** The product, without wrapping, is what the delay is computed from. */
  predicate DialSound(product: int) {
    -TWO_63 <= product < TWO_63 || (product >= 0 && DIAL_CAP <= product % TWO_64 < TWO_63)
  }

  /**
   * For any base and any dial number, the delay is min(d * 2^i ms, 30 s) exactly when the product
   * fits int64, or is too large and wraps around to at least the cap.
   */
  lemma DialDelayExact(d: int, i: nat)
    ensures DialDelay(d, i) == Min(DialProduct(d, i), DIAL_CAP) <==> DialSound(DialProduct(d, i))
  {
    DialDelayIsOneTruncation(d, i);
    Wrap64Exact(DialProduct(d, i), DIAL_CAP);
  }

  lemma Wrap64Exact(t: int, cap: nat)
    requires 0 < cap < TWO_63
    ensures Min(Wrap64(t), cap) == Min(t, cap) <==>
      -TWO_63 <= t < TWO_63 || (t >= 0 && cap <= t % TWO_64 < TWO_63)
  {
    var q, m := t / TWO_64, t % TWO_64;
    Wrap64Congruent(m, q);
    assert t == m + q * TWO_64;
  }

  function Capped(x: int): int { if x > 0 then x else 0 }

  /** Time slept after the first `n` failed dials; a negative sleep returns at once. */
  function Slept(d: int, n: nat): (r: nat) {
    if n == 0 then 0 else Slept(d, n - 1) + Capped(DialDelay(d, n - 1))
  }

  lemma {:induction false} SleptAtMostThirtySecondsEach(d: int, n: nat)
    ensures Slept(d, n) <= DIAL_CAP * n
  {
    if n > 0 {
      SleptAtMostThirtySecondsEach(d, n - 1);
    }
  }

  /**
   * Dials until an attempt succeeds or `maxRetries` attempts have failed.
   * `up(i)` says whether attempt `i` would reach Redis.
   */
  method DialWithRetry(up: nat -> bool, maxRetries: int, retryDelayMs: int)
    returns (connected: bool, dials: nat, slept: nat)
    ensures dials <= Capped(maxRetries)
    ensures connected ==> dials >= 1 && up(dials - 1) && slept == Slept(retryDelayMs, dials - 1)
    ensures connected ==> forall j: nat :: j < dials - 1 ==> !up(j)
    ensures !connected ==> dials == Capped(maxRetries) && slept == Slept(retryDelayMs, dials)
    ensures !connected ==> forall j: nat :: j < dials ==> !up(j)
    ensures slept <= DIAL_CAP * Capped(maxRetries)
  {
    dials, slept := 0, 0;
    var i := 0;
    while i < maxRetries
      invariant 0 <= i && dials == i && i <= Capped(maxRetries)
      invariant slept == Slept(retryDelayMs, i)
      invariant forall j: nat :: j < i ==> !up(j)
      decreases maxRetries - i
    {
      dials := dials + 1;
      if up(i) {
        SleptAtMostThirtySecondsEach(retryDelayMs, i);
        return true, dials, slept;
      }
      var delay := Wrap64(Wrap64(retryDelayMs * Shl1(i)) * MILLISECOND);
      if delay > 30 * SECOND {
        delay := 30 * SECOND;
      }
      slept := slept + Capped(delay);
      i := i + 1;
    }
    SleptAtMostThirtySecondsEach(retryDelayMs, i);
    return false, dials, slept;
  }

  lemma UncappedDelay(d: nat, i: nat)
    requires DialProduct(d, i) <= DIAL_CAP
    ensures DialDelay(d, i) == d * Pow2(i) * 1_000_000 >= 0
  {
    DialDelayExact(d, i);
    assert d * Pow2(i) >= 0;
  }

  lemma OneMorePause(d: nat, p: nat)
    ensures d * (p - 1) * 1_000_000 + d * p * 1_000_000 == d * (2 * p - 1) * 1_000_000
  {
    assert d * (p - 1) + d * p == d * (2 * p - 1);
  }

  /** As long as nothing is capped, the pauses after n failed dials add up to 2^n - 1 times the base. */
  lemma {:induction false} SleptExact(d: nat, n: nat)
    requires n > 0 ==> DialProduct(d, n - 1) <= DIAL_CAP
    ensures Slept(d, n) == d * (Pow2(n) - 1) * 1_000_000
  {
    if n == 0 {
      assert d * 0 == 0;
    } else {
      if n > 1 {
        DialProductGrows(d, n - 2);
      }
      SleptExact(d, n - 1);
      UncappedDelay(d, n - 1);
      OneMorePause(d, Pow2(n - 1));
    }
  }

  lemma DialProductGrows(d: nat, i: nat)
    ensures 0 <= DialProduct(d, i) <= DialProduct(d, i + 1)
  {
    var p := Pow2(i);
    assert d * (2 * p) == 2 * (d * p);
  }

  /** With the default base of a second, four failed dials cost 15 s. */
  lemma FourDials()
    ensures Slept(1000, 4) == 15_000_000_000
  {
    assert Pow2(3) == 8 && Pow2(4) == 16;
    SleptExact(1000, 4);
  }

  lemma Milliseconds()
    ensures UnixMilli(0) == 0 && UnixMilli(1_999_999) == 1 && UnixMilli(-1) == -1
  {
  }
}
