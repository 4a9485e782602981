/**
 * The simulated Upstash limits: a request quota and a fixed one-second window, and what they
 * guarantee over whole runs, with the two stages of concurrent calls interleaved.
 */
module RateLimiter {
  import opened GoInt

  const WINDOW: int := 1_000_000_000 // one second, in nanoseconds

  function Seconds(k: nat): int {
    1_000_000_000 * k
  }

  datatype Limits = Limits(quota: int, rps: int)

  // --- the window stage ---

  datatype Window = Window(start: int, count: nat)

  /** Counts a call at time `now`, opening a new window if the current one is a second old. */
  function Tick(w: Window, now: int): Window {
    if now - w.start >= WINDOW then Window(now, 1) else Window(w.start, w.count + 1)
  }

  /** The windows and the admitted calls of a run of the window stage at the given times. */
  function AfterCalls(w: Window, times: seq<int>): Window
    decreases |times|
  {
    if times == [] then w else AfterCalls(Tick(w, times[0]), times[1..])
  }

  /** Calls admitted among those at times in [from, to). */
  function Admitted(rps: int, w: Window, times: seq<int>, from: int, to: int): nat
    decreases |times|
  {
    if times == [] then 0
    else
      (if from <= times[0] < to && Tick(w, times[0]).count <= rps then 1 else 0)
      + Admitted(rps, Tick(w, times[0]), times[1..], from, to)
  }

  ghost predicate NonDecreasing(times: seq<int>) {
    forall i, j :: 0 <= i < j < |times| ==> times[i] <= times[j]
  }

  function Room(rps: int, w: Window): nat {
    if rps > w.count then rps - w.count else 0
  }

  /** Within one window, exactly the first `rps` calls are admitted. */
  lemma {:induction false} WindowAdmitsExactly(rps: nat, w: Window, times: seq<int>, from: int, to: int)
    requires forall t <- times :: t - w.start < WINDOW && from <= t < to
    ensures Admitted(rps, w, times, from, to) == Min(|times|, Room(rps, w))
    decreases |times|
  {
    if times != [] {
      assert times[0] in times && forall t <- times[1..] :: t in times;
      WindowAdmitsExactly(rps, Tick(w, times[0]), times[1..], from, to);
    }
  }

  /**
   * What is left of the current window, plus `rps` for each of the `k` windows that can still
   * open: the next one opens no earlier than `lo`, and the interval ends `k` seconds after `lo`.
   */
  lemma {:induction false} AdmittedAhead(rps: nat, w: Window, times: seq<int>, from: int, to: int, lo: int, k: nat)
    requires NonDecreasing(times)
    requires forall t <- times :: from <= t
    requires lo <= w.start + WINDOW || (times != [] ==> lo <= times[0])
    requires to <= lo + Seconds(k)
    ensures Admitted(rps, w, times, from, to) <= Room(rps, w) + rps * k
    decreases |times|
  {
    if times != [] {
      var t, v := times[0], Tick(w, times[0]);
      assert t in times && forall u <- times[1..] :: u in times;
      if t >= to {
        NoneAfter(rps, w, times, from, to);
      } else if t - w.start >= WINDOW {
        assert k >= 1;
        assert rps * k == rps * (k - 1) + rps;
        AdmittedAhead(rps, v, times[1..], from, to, lo + WINDOW, k - 1);
      } else {
        AdmittedAhead(rps, v, times[1..], from, to, lo, k);
      }
    }
  }

  lemma {:induction false} NoneAfter(rps: nat, w: Window, times: seq<int>, from: int, to: int)
    requires NonDecreasing(times) && (times != [] ==> times[0] >= to)
    ensures Admitted(rps, w, times, from, to) == 0
    decreases |times|
  {
    if times != [] {
      assert times[1..] != [] ==> times[1] >= times[0];
      NoneAfter(rps, Tick(w, times[0]), times[1..], from, to);
    }
  }

  /** In any run with a clock that never goes back, k whole seconds admit at most (k + 1) * rps calls. */
  lemma {:induction false} RpsBound(rps: nat, w: Window, times: seq<int>, from: int, k: nat)
    requires NonDecreasing(times)
    ensures Admitted(rps, w, times, from, from + Seconds(k)) <= (k + 1) * rps
    decreases |times|
  {
    var to := from + Seconds(k);
    if times != [] && times[0] < from {
      RpsBound(rps, Tick(w, times[0]), times[1..], from, k);
    } else {
      forall t | t in times ensures from <= t {
        assert times[0] <= t;
      }
      AdmittedAhead(rps, w, times, from, to, from, k);
      assert (k + 1) * rps == rps * k + rps;
    }
  }

  // --- the bound is reached ---

  /** `rps` calls at the end of the first window, then `rps` at the start of each of the next `k`. */
  function Bursts(rps: nat, k: nat): seq<int> {
    if k == 0 then seq(rps, _ => WINDOW - 1) else Bursts(rps, k - 1) + seq(rps, _ => Seconds(k))
  }

  lemma {:induction false} AdmittedConcat(rps: int, w: Window, a: seq<int>, b: seq<int>, from: int, to: int)
    ensures Admitted(rps, w, a + b, from, to)
            == Admitted(rps, w, a, from, to) + Admitted(rps, AfterCalls(w, a), b, from, to)
    ensures AfterCalls(w, a + b) == AfterCalls(AfterCalls(w, a), b)
    decreases |a|
  {
    if a == [] {
      assert a + b == b;
    } else {
      assert (a + b)[1..] == a[1..] + b;
      AdmittedConcat(rps, Tick(w, a[0]), a[1..], b, from, to);
    }
  }

  /** A burst inside the current window. */
  lemma {:induction false} BurstInside(rps: nat, w: Window, n: nat, t: int, from: int, to: int)
    requires from <= t < to && t - w.start < WINDOW && w.count + n <= rps
    ensures Admitted(rps, w, seq(n, _ => t), from, to) == n
    ensures AfterCalls(w, seq(n, _ => t)) == Window(w.start, w.count + n)
    decreases n
  {
    if n > 0 {
      assert seq(n, _ => t)[1..] == seq(n - 1, _ => t);
      BurstInside(rps, Tick(w, t), n - 1, t, from, to);
    }
  }

  lemma {:induction false} BurstTimes(rps: nat, k: nat)
    ensures NonDecreasing(Bursts(rps, k))
    ensures forall t <- Bursts(rps, k) :: WINDOW - 1 <= t && (t == WINDOW - 1 || t <= Seconds(k))
  {
    if k > 0 {
      BurstTimes(rps, k - 1);
      var a, b := Bursts(rps, k - 1), seq(rps, _ => Seconds(k));
      forall i, j | 0 <= i < j < |a + b| ensures (a + b)[i] <= (a + b)[j] {
        assert i < |a| ==> a[i] in a;
      }
    }
  }

  lemma {:induction false} BurstsAdmitAll(rps: nat, k: nat, to: int)
    requires rps > 0 && to > Seconds(k) && to >= WINDOW
    ensures Admitted(rps, Window(0, 0), Bursts(rps, k), WINDOW - 1, to) == (k + 1) * rps
    ensures AfterCalls(Window(0, 0), Bursts(rps, k)) == Window(Seconds(k), rps)
  {
    if k == 0 {
      BurstInside(rps, Window(0, 0), rps, WINDOW - 1, WINDOW - 1, to);
    } else {
      BurstsAdmitAll(rps, k - 1, to);
      var w, t := Window(Seconds(k - 1), rps), Seconds(k);
      var burst := seq(rps, _ => t);
      AdmittedConcat(rps, Window(0, 0), Bursts(rps, k - 1), burst, WINDOW - 1, to);
      assert burst[0] == t && burst[1..] == seq(rps - 1, _ => t);
      assert Tick(w, t) == Window(t, 1);
      BurstInside(rps, Window(t, 1), rps - 1, t, WINDOW - 1, to);
      assert (k + 1) * rps == k * rps + rps;
    }
  }

  /** For every k and every positive limit some run admits (k + 1) * rps calls in k seconds. */
  lemma RpsBoundIsReached(rps: nat, k: nat)
    requires rps > 0 && k > 0
    ensures exists times: seq<int> ::
              NonDecreasing(times)
              && Admitted(rps, Window(0, 0), times, WINDOW - 1, WINDOW - 1 + Seconds(k)) == (k + 1) * rps
  {
    BurstTimes(rps, k);
    BurstsAdmitAll(rps, k, WINDOW - 1 + Seconds(k));
  }

  // --- the documented promise: at most rps in any one second ---

  /** From window `w`, no future of non-decreasing times from `a` on admits more than `rps` in [a, a + 1s). */
  ghost predicate SlidingPromise(rps: nat, w: Window, a: int) {
    forall times: seq<int> ::
      NonDecreasing(times) && (forall t <- times :: a <= t) ==> Admitted(rps, w, times, a, a + WINDOW) <= rps
  }

  /**
   * The fixed window keeps the sliding promise from instant `a` exactly when the current window
   * is used up, or already over, or does not start before `a`.
   */
  lemma SlidingPromiseExact(rps: nat, w: Window, a: int)
    ensures SlidingPromise(rps, w, a) <==> w.count >= rps || w.start + WINDOW <= a || a <= w.start
  {
    if w.count >= rps || w.start + WINDOW <= a || a <= w.start {
      forall times: seq<int> | NonDecreasing(times) && forall t <- times :: a <= t
        ensures Admitted(rps, w, times, a, a + WINDOW) <= rps {
        if w.start + WINDOW <= a {
          ExpiredWindow(rps, w, times, a);
        } else if a <= w.start {
          AdmittedAhead(rps, w, times, a, a + WINDOW, w.start + WINDOW, 0);
        } else {
          AdmittedAhead(rps, w, times, a, a + WINDOW, a, 1);
        }
      }
    } else {
      TwoBursts(rps, w, a);
    }
  }

  lemma ExpiredWindow(rps: nat, w: Window, times: seq<int>, a: int)
    requires NonDecreasing(times) && (forall t <- times :: a <= t) && w.start + WINDOW <= a
    ensures Admitted(rps, w, times, a, a + WINDOW) <= rps
  {
    if times != [] {
      var t := times[0];
      assert t in times && forall u <- times[1..] :: u in times;
      AdmittedAhead(rps, Tick(w, t), times[1..], a, a + WINDOW, t + WINDOW, 0);
      if t >= a + WINDOW {
        NoneAfter(rps, w, times, a, a + WINDOW);
      }
    }
  }

  lemma TwoBursts(rps: nat, w: Window, a: int)
    requires w.count < rps && w.start < a < w.start + WINDOW
    ensures !SlidingPromise(rps, w, a)
  {
    var t, to := w.start + WINDOW, a + WINDOW;
    var first, second := seq(rps - w.count, _ => a), seq(rps, _ => t);
    BurstInside(rps, w, rps - w.count, a, a, to);
    AdmittedConcat(rps, w, first, second, a, to);
    assert second[0] == t && second[1..] == seq(rps - 1, _ => t);
    BurstInside(rps, Window(t, 1), rps - 1, t, a, to);
    assert Tick(Window(w.start, rps), t) == Window(t, 1);
    assert NonDecreasing(first + second) && forall u <- first + second :: a <= u;
    assert Admitted(rps, w, first + second, a, to) > rps;
  }

  // --- both stages, interleaved ---

  /** Request number `n + 1` of the server's life, as the int64 counter sees it, passes the quota. */
  predicate QuotaPasses(quota: int, n: nat) {
    Wrap64(n + 1) <= quota
  }

  /** How many of the first `n` requests pass the quota. */
  function PassedOf(quota: int, n: nat): nat {
    if n == 0 then 0 else PassedOf(quota, n - 1) + (if QuotaPasses(quota, n - 1) then 1 else 0)
  }

  lemma {:induction false} PassedOfExact(quota: nat, n: nat)
    requires n < TWO_63
    ensures PassedOf(quota, n) == Min(n, quota)
  {
    if n > 0 {
      PassedOfExact(quota, n - 1);
    }
  }

  type CallId = nat

  /** One stage of one call, under its lock. */
  datatype Event = QuotaStage(id: CallId) | WindowStage(id: CallId, now: int)

  /**
   * The limiter's fields, the calls between their two stages, and history: calls that have
   * done the quota stage, calls that passed it, times of window stages, calls let through.
   */
  datatype System = System(requestCount: int, window: Window, clock: int, between: set<CallId>, seen: set<CallId>,
                           asked: nat, passed: nat, times: seq<int>, allowed: nat)

  function Fresh(now: int): System {
    System(0, Window(now, 0), now, {}, {}, 0, 0, [], 0)
  }

  function BumpQuota(count: int): int {
    Wrap64(count + 1)
  }

  predicate CanHappen(s: System, e: Event) {
    match e
    case QuotaStage(id) => id !in s.seen
    case WindowStage(id, now) => id in s.between && s.clock <= now
  }

  /** A limit of zero or less is no limit, and its stage touches nothing. */
  function Happen(l: Limits, s: System, e: Event): System
    requires CanHappen(s, e)
  {
    match e
    case QuotaStage(id) =>
      var count := if l.quota > 0 then BumpQuota(s.requestCount) else s.requestCount;
      var ok := l.quota <= 0 || count <= l.quota;
      s.(requestCount := count, seen := s.seen + {id}, asked := s.asked + 1,
         between := if ok then s.between + {id} else s.between,
         passed := if ok then s.passed + 1 else s.passed)
    case WindowStage(id, now) =>
      var w := if l.rps > 0 then Tick(s.window, now) else s.window;
      s.(window := w, clock := now, between := s.between - {id}, times := s.times + [now],
         allowed := if l.rps <= 0 || w.count <= l.rps then s.allowed + 1 else s.allowed)
  }

  ghost predicate Possible(l: Limits, s: System, run: seq<Event>)
    decreases |run|
  {
    run == [] || (CanHappen(s, run[0]) && Possible(l, Happen(l, s, run[0]), run[1..]))
  }

  ghost function End(l: Limits, s: System, run: seq<Event>): System
    requires Possible(l, s, run)
    decreases |run|
  {
    if run == [] then s else End(l, Happen(l, s, run[0]), run[1..])
  }

  /** Calls let through by the window, over its whole run. */
  function AdmittedEver(rps: int, w: Window, times: seq<int>): nat
    decreases |times|
  {
    if times == [] then 0
    else (if Tick(w, times[0]).count <= rps then 1 else 0) + AdmittedEver(rps, Tick(w, times[0]), times[1..])
  }

  /** It is what is admitted in any interval that holds the whole run. */
  lemma {:induction false} AdmittedEverIsAdmitted(rps: int, w: Window, times: seq<int>, from: int, to: int)
    requires forall t <- times :: from <= t < to
    ensures AdmittedEver(rps, w, times) == Admitted(rps, w, times, from, to)
    decreases |times|
  {
    if times != [] {
      assert times[0] in times && forall t <- times[1..] :: t in times;
      AdmittedEverIsAdmitted(rps, Tick(w, times[0]), times[1..], from, to);
    }
  }

  ghost predicate Accounted(l: Limits, w0: Window, s: System) {
    && (if l.quota > 0 then s.requestCount == Wrap64(s.asked) && s.passed == PassedOf(l.quota, s.asked)
        else s.requestCount == 0 && s.passed == s.asked)
    && s.between <= s.seen && |s.between| + |s.times| == s.passed
    && s.allowed <= |s.times|
    && (if l.rps > 0 then s.window == AfterCalls(w0, s.times) && s.allowed == AdmittedEver(l.rps, w0, s.times)
        else s.window == w0 && s.allowed == |s.times|)
    && NonDecreasing(s.times) && (s.times != [] ==> s.times[|s.times| - 1] <= s.clock)
  }

  lemma {:induction false} OneMoreCall(rps: int, w: Window, times: seq<int>, now: int)
    ensures AfterCalls(w, times + [now]) == Tick(AfterCalls(w, times), now)
    ensures AdmittedEver(rps, w, times + [now])
            == AdmittedEver(rps, w, times) + (if Tick(AfterCalls(w, times), now).count <= rps then 1 else 0)
    decreases |times|
  {
    if times == [] {
      assert times + [now] == [now] && [now][1..] == [];
    } else {
      assert (times + [now])[1..] == times[1..] + [now];
      OneMoreCall(rps, Tick(w, times[0]), times[1..], now);
    }
  }

  lemma AccountedQuotaStage(l: Limits, w0: Window, s: System, id: CallId)
    requires Accounted(l, w0, s) && CanHappen(s, QuotaStage(id))
    ensures Accounted(l, w0, Happen(l, s, QuotaStage(id)))
  {
    Wrap64Shift(s.asked);
  }

  lemma AccountedWindowStage(l: Limits, w0: Window, s: System, id: CallId, now: int)
    requires Accounted(l, w0, s) && CanHappen(s, WindowStage(id, now))
    ensures Accounted(l, w0, Happen(l, s, WindowStage(id, now)))
  {
    OneMoreCall(l.rps, w0, s.times, now);
  }

  lemma AccountedStep(l: Limits, w0: Window, s: System, e: Event)
    requires Accounted(l, w0, s) && CanHappen(s, e)
    ensures Accounted(l, w0, Happen(l, s, e))
  {
    match e
    case QuotaStage(id) => AccountedQuotaStage(l, w0, s, id);
    case WindowStage(id, now) => AccountedWindowStage(l, w0, s, id, now);
  }

  lemma Wrap64Shift(n: int)
    ensures Wrap64(Wrap64(n) + 1) == Wrap64(n + 1)
  {
    var k := (n + TWO_63) / TWO_64;
    assert Wrap64(n) == n - k * TWO_64;
    Wrap64Congruent(n + 1, -k);
  }

  lemma {:induction false} AccountedRun(l: Limits, w0: Window, s: System, run: seq<Event>)
    requires Accounted(l, w0, s) && Possible(l, s, run)
    ensures Accounted(l, w0, End(l, s, run))
    decreases |run|
  {
    if run != [] {
      AccountedStep(l, w0, s, run[0]);
      AccountedRun(l, w0, Happen(l, s, run[0]), run[1..]);
    }
  }

  /**
   * Any interleaving of the stages of concurrent calls, as long as fewer than 2^63 requests
   * were made: the quota lets exactly the first `quota` requests through, and the window is
   * driven by those alone.
   */
  lemma QuotaExact(l: Limits, now: int, run: seq<Event>)
    requires l.quota > 0 && Possible(l, Fresh(now), run) && End(l, Fresh(now), run).asked < TWO_63
    ensures var s := End(l, Fresh(now), run);
            && s.passed == Min(s.asked, l.quota)
            && s.allowed <= l.quota
            && |s.times| == s.passed - |s.between|
            && (if l.rps > 0
                then s.allowed == AdmittedEver(l.rps, Window(now, 0), s.times)
                     && s.window == AfterCalls(Window(now, 0), s.times)
                else s.allowed == |s.times| && s.window == Window(now, 0))
  {
    assert AfterCalls(Window(now, 0), []) == Window(now, 0);
    AccountedRun(l, Window(now, 0), Fresh(now), run);
    PassedOfExact(l.quota, End(l, Fresh(now), run).asked);
  }

  /**
   * In any interleaving of concurrent calls, the calls that passed the window within any k whole
   * seconds are at most (k + 1) * rps; over the whole run they are all the calls let through.
   */
  lemma CallsInSeconds(l: Limits, now: int, run: seq<Event>, from: int, k: nat)
    requires l.rps > 0 && Possible(l, Fresh(now), run)
    ensures var s := End(l, Fresh(now), run);
      && Admitted(l.rps, Window(now, 0), s.times, from, from + Seconds(k)) <= (k + 1) * l.rps
      && s.allowed == AdmittedEver(l.rps, Window(now, 0), s.times)
  {
    assert AfterCalls(Window(now, 0), []) == Window(now, 0);
    AccountedRun(l, Window(now, 0), Fresh(now), run);
    RpsBound(l.rps, Window(now, 0), End(l, Fresh(now), run).times, from, k);
  }

  /** In every reachable state, the next request passes the quota exactly by its number, wrap-around included. */
  lemma NextQuotaStage(l: Limits, now: int, run: seq<Event>, id: CallId)
    requires l.quota > 0 && Possible(l, Fresh(now), run) && CanHappen(End(l, Fresh(now), run), QuotaStage(id))
    ensures var s := End(l, Fresh(now), run);
            && (Happen(l, s, QuotaStage(id)).passed > s.passed <==> QuotaPasses(l.quota, s.asked))
            && Happen(l, s, QuotaStage(id)).window == s.window
            && (l.quota <= s.asked < TWO_63 - 1 ==> Happen(l, s, QuotaStage(id)).passed == s.passed)
  {
    AccountedRun(l, Window(now, 0), Fresh(now), run);
    Wrap64Shift(End(l, Fresh(now), run).asked);
  }

  // --- the objects ---

  const OVER_QUOTA := "ERR daily request quota exceeded (simulated Upstash free tier limit)"
  const OVER_RPS := "ERR rate limit exceeded (simulated Upstash RPS limit)"

  /** No reason for a call that passes; else that of the stage that refused it. */
  function ReasonFor(passedQuota: bool, ok: bool): string {
    if ok then "" else if passedQuota then OVER_RPS else OVER_QUOTA
  }

  class AtomicInt64 {
    var v: int

    constructor ()
      ensures v == 0
    {
      v := 0;
    }

    method Add(n: int) returns (r: int)
      modifies this
      ensures v == Wrap64(old(v) + n) && r == v
    {
      v := Wrap64(v + n);
      r := v;
    }
  }

  class Limiter {
    const limits: Limits
    const requestCount: AtomicInt64
    var windowStart: int
    var windowCount: nat

    constructor (quotaLimit: int, rpsLimit: int, now: int)
      ensures limits == Limits(quotaLimit, rpsLimit) && fresh(requestCount)
      ensures requestCount.v == 0 && Current() == Window(now, 0)
    {
      limits := Limits(quotaLimit, rpsLimit);
      windowStart, windowCount := now, 0;
      requestCount := new AtomicInt64();
    }

    function Current(): Window
      reads this
    {
      Window(windowStart, windowCount)
    }

    /** The quota stage; a quota of zero or less is no quota. */
    method CheckQuota() returns (ok: bool)
      modifies requestCount
      ensures limits.quota <= 0 ==> ok && requestCount.v == old(requestCount.v)
      ensures limits.quota > 0 ==>
                requestCount.v == BumpQuota(old(requestCount.v)) && (ok <==> requestCount.v <= limits.quota)
    {
      ok := true;
      if limits.quota > 0 {
        var count := requestCount.Add(1);
        ok := !(count > limits.quota);
      }
    }

    /** The window stage, under the mutex; `now` is the clock read inside it. */
    method CheckWindow(now: int) returns (ok: bool)
      modifies this
      ensures limits.rps <= 0 ==> ok && Current() == old(Current())
      ensures limits.rps > 0 ==> Current() == Tick(old(Current()), now) && (ok <==> Current().count <= limits.rps)
    {
      ok := true;
      if limits.rps > 0 {
        if now - windowStart >= WINDOW {
          windowStart := now;
          windowCount := 0;
        }
        windowCount := windowCount + 1;
        ok := !(windowCount > limits.rps);
      }
    }

    /** A call that nobody overtakes: the two stages of the interleaved system, back to back. */
    method Allow(now: int, ghost s: System, ghost id: CallId) returns (ok: bool, reason: string)
      requires s.requestCount == requestCount.v && s.window == Current() && s.clock <= now
      requires id !in s.seen && s.between <= s.seen
      modifies this, requestCount
      ensures var t := Happen(limits, s, QuotaStage(id));
              var u := if id in t.between then Happen(limits, t, WindowStage(id, now)) else t;
              && requestCount.v == u.requestCount && Current() == u.window && (ok <==> u.allowed > s.allowed)
              && reason == ReasonFor(id in t.between, ok)
      ensures ok <==> (limits.quota <= 0 || requestCount.v <= limits.quota)
                      && (limits.rps <= 0 || Current().count <= limits.rps)
    {
      ghost var t := Happen(limits, s, QuotaStage(id));
      var underQuota := CheckQuota();
      assert underQuota <==> id in t.between;
      if !underQuota {
        ok, reason := false, OVER_QUOTA;
      } else {
        ok := CheckWindow(now);
        reason := if ok then "" else OVER_RPS;
      }
    }

    /** Without a limiter everything is allowed. */
    static method AllowIfAny(r: Limiter?, now: int, ghost s: System, ghost id: CallId)
      returns (ok: bool, reason: string)
      requires r != null ==> s.requestCount == r.requestCount.v && s.window == r.Current() && s.clock <= now
      requires id !in s.seen && s.between <= s.seen
      modifies r, if r != null then {r.requestCount} else {}
      ensures r == null ==> ok && reason == ""
      ensures r != null ==>
              var t := Happen(r.limits, s, QuotaStage(id));
              var u := if id in t.between then Happen(r.limits, t, WindowStage(id, now)) else t;
              && r.requestCount.v == u.requestCount && r.Current() == u.window && (ok <==> u.allowed > s.allowed)
              && reason == ReasonFor(id in t.between, ok)
      ensures r != null ==>
              (ok <==> (r.limits.quota <= 0 || r.requestCount.v <= r.limits.quota)
                       && (r.limits.rps <= 0 || r.Current().count <= r.limits.rps))
    {
      if r == null {
        return true, "";
      }
      ok, reason := r.Allow(now, s, id);
    }
  }
}
