/** Machines run over a list of inputs, one output per input. */
module Folds {
  function Fold<S, X, Y>(f: (S, X) -> (S, Y), s: S, xs: seq<X>): (result: (S, seq<Y>))
    ensures |result.1| == |xs|
    decreases |xs|
  {
    if xs == [] then (s, [])
    else
      var (t, ys) := Fold(f, s, xs[..|xs| - 1]);
      var (u, y) := f(t, xs[|xs| - 1]);
      (u, ys + [y])
  }

  lemma FoldSnoc<S, X, Y>(f: (S, X) -> (S, Y), s: S, xs: seq<X>, x: X)
    ensures var (t, ys) := Fold(f, s, xs);
      Fold(f, s, xs + [x]) == (f(t, x).0, ys + [f(t, x).1])
  {
    assert (xs + [x])[..|xs|] == xs;
  }

  lemma FoldUpTo<S, X, Y>(f: (S, X) -> (S, Y), s: S, xs: seq<X>, i: nat)
    requires i < |xs|
    ensures var (t, ys) := Fold(f, s, xs[..i]);
      Fold(f, s, xs[..i + 1]) == (f(t, xs[i]).0, ys + [f(t, xs[i]).1])
  {
    assert xs[..i + 1] == xs[..i] + [xs[i]];
    FoldSnoc(f, s, xs[..i], xs[i]);
  }

  /** Running on from where a first list ended. */
  lemma {:induction false} FoldConcat<S, X, Y>(f: (S, X) -> (S, Y), s: S, xs: seq<X>, zs: seq<X>)
    ensures var (t, ys) := Fold(f, s, xs);
      Fold(f, s, xs + zs) == (Fold(f, t, zs).0, ys + Fold(f, t, zs).1)
    decreases |zs|
  {
    if zs == [] {
      assert xs + zs == xs && Fold(f, s, xs).1 + [] == Fold(f, s, xs).1;
    } else {
      var n := |zs| - 1;
      var (t, ys) := Fold(f, s, xs);
      var (u, ws) := Fold(f, t, zs[..n]);
      FoldConcat(f, s, xs, zs[..n]);
      FoldSnoc(f, s, xs + zs[..n], zs[n]);
      assert xs + zs == (xs + zs[..n]) + [zs[n]];
      FoldSnoc(f, t, zs[..n], zs[n]);
      assert zs == zs[..n] + [zs[n]];
      assert (ys + ws) + [f(u, zs[n]).1] == ys + (ws + [f(u, zs[n]).1]);
    }
  }

  // --- inputs that change nothing ---

  function Filter<X>(keep: X -> bool, xs: seq<X>): seq<X>
    decreases |xs|
  {
    if xs == [] then []
    else Filter(keep, xs[..|xs| - 1]) + if keep(xs[|xs| - 1]) then [xs[|xs| - 1]] else []
  }

  /** The outputs at the inputs that are kept. */
  function Pick<X, Y>(keep: X -> bool, xs: seq<X>, ys: seq<Y>): seq<Y>
    requires |xs| == |ys|
    decreases |xs|
  {
    if xs == [] then []
    else
      var n := |xs| - 1;
      Pick(keep, xs[..n], ys[..n]) + if keep(xs[n]) then [ys[n]] else []
  }

  lemma FilterSnoc<X>(keep: X -> bool, xs: seq<X>, x: X)
    ensures Filter(keep, xs + [x]) == if keep(x) then Filter(keep, xs) + [x] else Filter(keep, xs)
  {
    assert (xs + [x])[..|xs|] == xs;
  }

  lemma PickSnoc<X, Y>(keep: X -> bool, xs: seq<X>, ys: seq<Y>, x: X, y: Y)
    requires |xs| == |ys|
    ensures Pick(keep, xs + [x], ys + [y]) == if keep(x) then Pick(keep, xs, ys) + [y] else Pick(keep, xs, ys)
  {
    assert (xs + [x])[..|xs|] == xs && (ys + [y])[..|ys|] == ys;
  }

  ghost predicate Skips<S, X, Y>(f: (S, X) -> (S, Y), s: S, xs: seq<X>, keep: X -> bool, skipped: X -> Y) {
    var (t, ys) := Fold(f, s, xs);
    && (t, Pick(keep, xs, ys)) == Fold(f, s, Filter(keep, xs))
    && forall i :: 0 <= i < |xs| && !keep(xs[i]) ==> ys[i] == skipped(xs[i])
  }

  lemma SkipsKept<S, X, Y>(
    f: (S, X) -> (S, Y), s: S, xs: seq<X>, x: X, keep: X -> bool, skipped: X -> Y)
    requires Skips(f, s, xs, keep, skipped) && keep(x)
    ensures Skips(f, s, xs + [x], keep, skipped)
  {
    var (t, ys) := Fold(f, s, xs);
    FoldSnoc(f, s, xs, x);
    FilterSnoc(keep, xs, x);
    PickSnoc(keep, xs, ys, x, f(t, x).1);
    FoldSnoc(f, s, Filter(keep, xs), x);
  }

  lemma SkipsOver<S, X, Y>(
    f: (S, X) -> (S, Y), s: S, xs: seq<X>, x: X, keep: X -> bool, skipped: X -> Y)
    requires Skips(f, s, xs, keep, skipped) && !keep(x)
    requires f(Fold(f, s, xs).0, x) == (Fold(f, s, xs).0, skipped(x))
    ensures Skips(f, s, xs + [x], keep, skipped)
  {
    FoldSnoc(f, s, xs, x);
    FilterSnoc(keep, xs, x);
    PickSnoc(keep, xs, Fold(f, s, xs).1, x, skipped(x));
  }

  /** If the other inputs change nothing, only those that are kept matter. */
  lemma {:induction false} FoldSkips<S(!new), X(!new), Y>(
    f: (S, X) -> (S, Y), s: S, xs: seq<X>, keep: X -> bool, skipped: X -> Y)
    requires forall t, x :: !keep(x) ==> f(t, x) == (t, skipped(x))
    ensures Skips(f, s, xs, keep, skipped)
    decreases |xs|
  {
    if xs != [] {
      var n := |xs| - 1;
      FoldSkips(f, s, xs[..n], keep, skipped);
      assert xs == xs[..n] + [xs[n]];
      if keep(xs[n]) {
        SkipsKept(f, s, xs[..n], xs[n], keep, skipped);
      } else {
        SkipsOver(f, s, xs[..n], xs[n], keep, skipped);
      }
    }
  }

  // --- one machine seen through another ---

  ghost predicate Simulates<S(!new), X, Y, R, Z, W>(
    f: (S, X) -> (S, Y), h: (R, Z) -> (R, W), view: S -> R, out: W -> Y, r: R, xs: seq<X>, zs: seq<Z>)
    requires |xs| == |zs|
  {
    forall t, k :: 0 <= k < |xs| && view(t) == Fold(h, r, zs[..k]).0 ==>
      && view(f(t, xs[k]).0) == h(view(t), zs[k]).0
      && f(t, xs[k]).1 == out(h(view(t), zs[k]).1)
  }

  function Map<W, Y>(out: W -> Y, ws: seq<W>): seq<Y> {
    seq(|ws|, i requires 0 <= i < |ws| => out(ws[i]))
  }

  lemma MapConcat<W, Y>(out: W -> Y, xs: seq<W>, ys: seq<W>)
    ensures Map(out, xs + ys) == Map(out, xs) + Map(out, ys)
  {
    forall i | 0 <= i < |xs + ys| ensures Map(out, xs + ys)[i] == (Map(out, xs) + Map(out, ys))[i] {
    }
  }

  ghost predicate Matches<S, X, Y, R, Z, W>(
    f: (S, X) -> (S, Y), h: (R, Z) -> (R, W), view: S -> R, out: W -> Y, s: S, xs: seq<X>, zs: seq<Z>)
  {
    var (t, ys) := Fold(f, s, xs);
    var (q, ws) := Fold(h, view(s), zs);
    view(t) == q && ys == Map(out, ws)
  }

  lemma MatchesSnoc<S, X, Y, R, Z, W>(
    f: (S, X) -> (S, Y), h: (R, Z) -> (R, W), view: S -> R, out: W -> Y,
    s: S, xs: seq<X>, zs: seq<Z>, x: X, z: Z)
    requires Matches(f, h, view, out, s, xs, zs)
    requires var t := Fold(f, s, xs).0;
      view(f(t, x).0) == h(view(t), z).0 && f(t, x).1 == out(h(view(t), z).1)
    ensures Matches(f, h, view, out, s, xs + [x], zs + [z])
  {
    FoldSnoc(f, s, xs, x);
    FoldSnoc(h, view(s), zs, z);
  }

  /** A machine that simulates another step by step does so over whole runs. */
  lemma {:induction false} FoldSimulates<S(!new), X, Y, R, Z, W>(
    f: (S, X) -> (S, Y), h: (R, Z) -> (R, W), view: S -> R, out: W -> Y,
    s: S, xs: seq<X>, zs: seq<Z>, n: nat)
    requires n <= |xs| == |zs|
    requires Simulates(f, h, view, out, view(s), xs, zs)
    ensures Matches(f, h, view, out, s, xs[..n], zs[..n])
    decreases n
  {
    if n > 0 {
      FoldSimulates(f, h, view, out, s, xs, zs, n - 1);
      MatchesSnoc(f, h, view, out, s, xs[..n - 1], zs[..n - 1], xs[n - 1], zs[n - 1]);
      assert xs[..n] == xs[..n - 1] + [xs[n - 1]] && zs[..n] == zs[..n - 1] + [zs[n - 1]];
    }
  }
}
