/**
 * Redis replies on their way to the client: trees of slices that are rewritten in place, first to
 * plain values and then to base64, and the decoding a client applies to the result.
 */
module ReplyTree {
  import opened Wrappers
  import opened Base64

  const OK: Bytes := [79, 75]

  /** A reply as a value; error replies can occur inside arrays. */
  datatype Reply =
    | Bulk(bytes: Bytes)
    | Text(text: Bytes)
    | Int(n: int)
    | Nil
    | Error(message: Bytes)
    | List(items: seq<Reply>)

  // --- what the two rewrites compute ---

  function Plain(r: Reply, useBase64: bool): Reply {
    match r
    case Bulk(b) => Text(if useBase64 then Encode(b) else b)
    case Error(m) => Text(m)
    case List(items) => List(seq(|items|, i requires 0 <= i < |items| => Plain(items[i], useBase64)))
    case _ => r
  }

  function EncodedText(t: Bytes): Bytes {
    if t == OK then OK else Encode(t)
  }

  function Encoded(r: Reply, useBase64: bool): Reply {
    match r
    case Bulk(b) => Text(if useBase64 then EncodedText(b) else b)
    case Text(t) => Text(if useBase64 then EncodedText(t) else t)
    case List(items) => List(seq(|items|, i requires 0 <= i < |items| => Encoded(items[i], useBase64)))
    case _ => r
  }

  // --- what they keep ---

  /** The text `t` says the string `b`: as it is, or in base64 unless it is "OK". */
  predicate Says(b: Bytes, t: Bytes, useBase64: bool) {
    if !useBase64 || b == OK then t == b else t != OK && Decode(t) == Some(b)
  }

  /**
   * The answer `e` has the content of the reply `r`: strings and error messages as text, numbers and
   * nil as they are, arrays element by element.
   */
  predicate Shows(r: Reply, e: Reply, useBase64: bool) {
    match r
    case Bulk(b) => e.Text? && Says(b, e.text, useBase64)
    case Text(b) => e.Text? && Says(b, e.text, useBase64)
    case Error(b) => e.Text? && Says(b, e.text, useBase64)
    case List(items) =>
      e.List? && |e.items| == |items| && forall i :: 0 <= i < |items| ==> Shows(items[i], e.items[i], useBase64)
    case _ => e == r
  }

  /** Converting a reply keeps all of its content. */
  lemma {:induction false} PlainShows(r: Reply)
    ensures Shows(r, Plain(r, false), false)
  {
    if r.List? {
      forall i | 0 <= i < |r.items| ensures Shows(r.items[i], Plain(r, false).items[i], false) {
        PlainShows(r.items[i]);
      }
    }
  }

  lemma EncodedSays(t: Bytes)
    ensures Says(t, EncodedText(t), true)
  {
    DecodeEncode(t);
    EncodedLength(t);
  }

  /** So does encoding what was converted. */
  lemma {:induction false} EncodedShows(r: Reply, p: Reply, useBase64: bool)
    requires Shows(r, p, false)
    ensures Shows(r, Encoded(p, useBase64), useBase64)
  {
    if r.List? {
      forall i | 0 <= i < |r.items| ensures Shows(r.items[i], Encoded(p, useBase64).items[i], useBase64) {
        EncodedShows(r.items[i], p.items[i], useBase64);
      }
    } else if p.Text? {
      EncodedSays(p.text);
    }
  }

  /** Converting with base64 at once makes every byte string readable as base64, "OK" included. */
  predicate ShowsBytes(r: Reply, e: Reply) {
    match r
    case Bulk(b) => e.Text? && Decode(e.text) == Some(b)
    case Error(b) => e == Text(b)
    case List(items) =>
      e.List? && |e.items| == |items| && forall i :: 0 <= i < |items| ==> ShowsBytes(items[i], e.items[i])
    case _ => e == r
  }

  lemma {:induction false} PlainShowsBytes(r: Reply)
    ensures ShowsBytes(r, Plain(r, true))
  {
    if r.List? {
      forall i | 0 <= i < |r.items| ensures ShowsBytes(r.items[i], Plain(r, true).items[i]) {
        PlainShowsBytes(r.items[i]);
      }
    } else if r.Bulk? {
      DecodeEncode(r.bytes);
    }
  }

  // --- replies on the heap ---

  /** An `interface{}` holding a reply: a scalar, or a slice shared with whoever else holds it. */
  datatype Value = Scalar(reply: Reply) | Slice(elems: array<Value>)

  /** Which slices a value reaches, and how they nest. */
  datatype Shape = Leaf | Node(elems: array<Value>, kids: seq<Shape>, reached: set<array<Value>>)

  function Foot(s: Shape): set<array<Value>> {
    if s.Leaf? then {} else s.reached
  }

  ghost predicate Apart(s: Shape, t: Shape) {
    Foot(s) !! Foot(t)
  }

  /** No slice reaches itself; one may be reached along several paths. */
  ghost predicate Nested(s: Shape) {
    s.Node? ==>
      && s.elems in s.reached
      && forall i :: 0 <= i < |s.kids| ==>
          Nested(s.kids[i]) && Foot(s.kids[i]) <= s.reached && s.elems !in Foot(s.kids[i])
  }

  ghost predicate Separate(s: Shape) {
    s.Node? ==>
      && (forall i :: 0 <= i < |s.kids| ==> Separate(s.kids[i]))
      && (forall i, j :: 0 <= i < |s.kids| && 0 <= j < |s.kids| && i != j ==> Apart(s.kids[i], s.kids[j]))
  }

  /** Every slice is reached along one path only. */
  ghost predicate NoAlias(s: Shape) {
    Nested(s) && Separate(s)
  }

  /** The value `v`, laid out as `s`, is currently the reply `r`. */
  ghost predicate Holds(v: Value, s: Shape, r: Reply)
    requires Nested(s)
    reads Foot(s)
    decreases s
  {
    match s
    case Leaf => v == Scalar(r) && !r.List?
    case Node(a, kids, _) =>
      && v == Slice(a)
      && r.List?
      && a.Length == |kids| == |r.items|
      && forall i :: 0 <= i < |kids| ==> Holds(a[i], kids[i], r.items[i])
  }

  /** Overwriting element `i` replaces the i-th item and nothing else. */
  method Store(a: array<Value>, i: nat, x: Value, ghost s: Shape, ghost items: seq<Reply>, ghost r: Reply)
    requires s.Node? && s.elems == a && NoAlias(s) && i < |s.kids| == |items| == a.Length
    requires forall k :: 0 <= k < |items| && k != i ==> Holds(a[k], s.kids[k], items[k])
    requires Holds(x, s.kids[i], r)
    modifies a
    ensures Holds(Slice(a), s, List(items[i := r]))
  {
    a[i] := x;
    forall k | 0 <= k < |items| ensures Holds(a[k], s.kids[k], items[i := r][k]) {
      assert NoAlias(s.kids[k]);
    }
  }

  /** convertRedisResult: slices are overwritten element by element and handed back. */
  method ConvertRedisResult(v: Value, useBase64: bool, ghost s: Shape, ghost r: Reply) returns (out: Value)
    requires NoAlias(s) && Holds(v, s, r)
    modifies Foot(s)
    ensures Holds(out, s, Plain(r, useBase64))
    ensures if useBase64 then ShowsBytes(r, Plain(r, true)) else Shows(r, Plain(r, false), false)
    ensures v.Slice? ==> out == v
    decreases s
  {
    PlainShows(r);
    PlainShowsBytes(r);
    if v.Scalar? {
      var x := v.reply;
      if x.Bulk? {
        out := Scalar(Text(if useBase64 then Encode(x.bytes) else x.bytes));
      } else if x.Error? {
        out := Scalar(Text(x.message));
      } else {
        out := v;
      }
    } else {
      var a := v.elems;
      ghost var now := r.items;
      for i := 0 to a.Length
        invariant |now| == |r.items| && Holds(v, s, List(now))
        invariant forall k :: 0 <= k < |now| ==>
          now[k] == if k < i then Plain(r.items[k], useBase64) else r.items[k]
      {
        assert NoAlias(s.kids[i]);
        var x := ConvertRedisResult(a[i], useBase64, s.kids[i], now[i]);
        forall k | 0 <= k < |now| && k != i ensures Holds(a[k], s.kids[k], now[k]) {
          assert NoAlias(s.kids[k]) && Apart(s.kids[i], s.kids[k]);
        }
        Store(a, i, x, s, now, Plain(now[i], useBase64));
        now := now[i := Plain(now[i], useBase64)];
      }
      out := v;
    }
  }

  // --- encoding in place ---

  function EncodedTimes(r: Reply, useBase64: bool, n: nat): Reply
    decreases n
  {
    if n == 0 then r else EncodedTimes(Encoded(r, useBase64), useBase64, n - 1)
  }

  lemma {:induction false} EncodedTimesAdd(r: Reply, useBase64: bool, m: nat, n: nat)
    ensures EncodedTimes(EncodedTimes(r, useBase64, m), useBase64, n) == EncodedTimes(r, useBase64, m + n)
    decreases m
  {
    if m > 0 {
      EncodedTimesAdd(Encoded(r, useBase64), useBase64, m - 1, n);
    }
  }

  /** An element that is rewritten `n` times: strings are encoded, slices stay where they are. */
  function Coded(x: Value, useBase64: bool, n: nat): Value {
    if x.Slice? then x else Scalar(EncodedTimes(x.reply, useBase64, n))
  }

  lemma CodedAdd(x: Value, useBase64: bool, m: nat, n: nat)
    ensures Coded(Coded(x, useBase64, m), useBase64, n) == Coded(x, useBase64, m + n)
  {
    if x.Scalar? {
      EncodedTimesAdd(x.reply, useBase64, m, n);
    }
  }

  predicate IsScalar(x: Value) {
    x.Scalar? && !x.reply.List?
  }

  lemma {:induction false} TimesKeepsScalars(r: Reply, useBase64: bool, n: nat)
    requires !r.List?
    ensures !EncodedTimes(r, useBase64, n).List?
    decreases n
  {
    if n > 0 {
      TimesKeepsScalars(Encoded(r, useBase64), useBase64, n - 1);
    }
  }

  type Heap = map<array<Value>, seq<Value>>

  ghost function Contents(s: Shape): Heap
    reads Foot(s)
  {
    map a | a in Foot(s) :: a[..]
  }

  /** In `h`, the slices that `v` reaches are linked as `s` says. */
  ghost predicate Linked(v: Value, s: Shape, h: Heap)
    decreases s
  {
    match s
    case Leaf => IsScalar(v)
    case Node(a, kids, _) =>
      v == Slice(a) && a in h && |h[a]| == |kids| && forall i :: 0 <= i < |kids| ==> Linked(h[a][i], kids[i], h)
  }

  /** Along how many paths slice `a` is reached, in all and through the first `i` elements. */
  ghost function Times(s: Shape, a: array<Value>): nat
    decreases s, 0
  {
    if s.Leaf? then 0 else (if a == s.elems then 1 else 0) + TimesIn(s.kids, a)
  }

  ghost function TimesIn(kids: seq<Shape>, a: array<Value>): nat
    decreases kids
  {
    if kids == [] then 0 else TimesIn(kids[..|kids| - 1], a) + Times(kids[|kids| - 1], a)
  }

  lemma TimesInSnoc(kids: seq<Shape>, i: nat, a: array<Value>)
    requires i < |kids|
    ensures TimesIn(kids[..i + 1], a) == TimesIn(kids[..i], a) + Times(kids[i], a)
  {
    assert kids[..i + 1][..i] == kids[..i];
  }

  lemma {:induction false} TimesOutside(s: Shape, a: array<Value>)
    requires Nested(s) && a !in Foot(s)
    ensures Times(s, a) == 0
    decreases s, if s.Node? then |s.kids| + 1 else 0
  {
    if s.Node? {
      TimesInOutside(s, |s.kids|, a);
      assert s.kids[..|s.kids|] == s.kids;
    }
  }

  lemma {:induction false} TimesInOutside(s: Shape, i: nat, a: array<Value>)
    requires s.Node? && Nested(s) && i <= |s.kids| && forall k :: 0 <= k < |s.kids| ==> a !in Foot(s.kids[k])
    ensures TimesIn(s.kids[..i], a) == 0
    decreases s, i
  {
    if i > 0 {
      TimesInOutside(s, i - 1, a);
      TimesInSnoc(s.kids, i - 1, a);
      TimesOutside(s.kids[i - 1], a);
    }
  }

  predicate SameKind(x: Value, y: Value) {
    (x.Slice? ==> y == x) && (IsScalar(x) ==> IsScalar(y))
  }

  lemma CodedKind(x: Value, useBase64: bool, n: nat)
    ensures SameKind(x, Coded(x, useBase64, n))
  {
    if IsScalar(x) {
      TimesKeepsScalars(x.reply, useBase64, n);
    }
  }

  function CodedAll(xs: seq<Value>, useBase64: bool, n: nat): seq<Value> {
    seq(|xs|, i requires 0 <= i < |xs| => Coded(xs[i], useBase64, n))
  }

  predicate Alike(xs: seq<Value>, ys: seq<Value>) {
    |ys| == |xs| && forall i :: 0 <= i < |xs| ==> SameKind(xs[i], ys[i])
  }

  lemma CodedAlike(xs: seq<Value>, useBase64: bool, n: nat)
    ensures Alike(xs, CodedAll(xs, useBase64, n))
  {
    forall i | 0 <= i < |xs| ensures SameKind(xs[i], CodedAll(xs, useBase64, n)[i]) {
      CodedKind(xs[i], useBase64, n);
    }
  }

  lemma CodedAllAdd(xs: seq<Value>, useBase64: bool, m: nat, n: nat)
    ensures CodedAll(CodedAll(xs, useBase64, m), useBase64, n) == CodedAll(xs, useBase64, m + n)
  {
    forall i | 0 <= i < |xs|
      ensures CodedAll(CodedAll(xs, useBase64, m), useBase64, n)[i] == CodedAll(xs, useBase64, m + n)[i]
    {
      CodedAdd(xs[i], useBase64, m, n);
    }
  }

  lemma CodedNever(xs: seq<Value>, useBase64: bool)
    ensures CodedAll(xs, useBase64, 0) == xs
  {
    assert forall i :: 0 <= i < |xs| ==> Coded(xs[i], useBase64, 0) == xs[i];
  }

  /** Rewriting elements leaves the links as they are. */
  lemma {:induction false} LinkedKept(v: Value, s: Shape, h: Heap, g: Heap)
    requires Nested(s) && Linked(v, s, h)
    requires forall a :: a in Foot(s) ==> a in h && a in g && Alike(h[a], g[a])
    ensures Linked(v, s, g)
    decreases s
  {
    if s.Node? {
      var a := s.elems;
      forall i | 0 <= i < |s.kids| ensures Linked(g[a][i], s.kids[i], g) {
        assert SameKind(h[a][i], g[a][i]) && Linked(h[a][i], s.kids[i], h);
        if s.kids[i].Node? {
          LinkedKept(h[a][i], s.kids[i], h, g);
        }
      }
    }
  }

  /** From `h` to `g`, every slice is rewritten once for each path along which `s` reaches it. */
  ghost predicate Rewritten(s: Shape, h: Heap, g: Heap, useBase64: bool) {
    forall a :: a in Foot(s) ==> a in h && a in g && g[a] == CodedAll(h[a], useBase64, Times(s, a))
  }

  /** The same part of the way, when `i` elements of `s` have been dealt with. */
  ghost predicate RewrittenUpTo(s: Shape, i: nat, h: Heap, g: Heap, useBase64: bool)
    requires s.Node? && i <= |s.kids|
  {
    forall a :: a in Foot(s) && a != s.elems ==>
      a in h && a in g && g[a] == CodedAll(h[a], useBase64, TimesIn(s.kids[..i], a))
  }

  predicate FrontDone(xs: seq<Value>, ys: seq<Value>, i: nat, useBase64: bool) {
    i <= |xs| == |ys| && ys[..i] == CodedAll(xs[..i], useBase64, 1) && ys[i..] == xs[i..]
  }

  lemma StartOfLoop(s: Shape, h: Heap, useBase64: bool)
    requires s.Node? && forall a :: a in Foot(s) ==> a in h
    ensures RewrittenUpTo(s, 0, h, h, useBase64)
  {
    forall a | a in Foot(s) ensures h[a] == CodedAll(h[a], useBase64, TimesIn(s.kids[..0], a)) {
      CodedNever(h[a], useBase64);
    }
  }

  /** The next element is still linked as at the start. */
  lemma KidLinked(v: Value, s: Shape, i: nat, h: Heap, g: Heap, k: Heap, useBase64: bool)
    requires Nested(s) && s.Node? && i < |s.kids| && Linked(v, s, h) && RewrittenUpTo(s, i, h, g, useBase64)
    requires s.elems in h && s.elems in g && FrontDone(h[s.elems], g[s.elems], i, useBase64)
    requires forall b :: b in Foot(s.kids[i]) ==> b in k && b in g && k[b] == g[b]
    ensures i < |g[s.elems]| && Linked(g[s.elems][i], s.kids[i], k)
  {
    var t, xs, ys := s.kids[i], h[s.elems], g[s.elems];
    assert ys[i] == ys[i..][0] && xs[i] == xs[i..][0];
    assert Linked(xs[i], t, h) && Nested(t);
    forall b | b in Foot(t) ensures b in h && b in k && Alike(h[b], k[b]) {
      assert b in Foot(s) && b != s.elems;
      CodedAlike(h[b], useBase64, TimesIn(s.kids[..i], b));
    }
    LinkedKept(xs[i], t, h, k);
  }

  lemma TurnAt(s: Shape, i: nat, xs: seq<Value>, ys: seq<Value>, zs: seq<Value>, a: array<Value>, useBase64: bool)
    requires Nested(s) && s.Node? && i < |s.kids| && ys == CodedAll(xs, useBase64, TimesIn(s.kids[..i], a))
    requires if a in Foot(s.kids[i]) then zs == CodedAll(ys, useBase64, Times(s.kids[i], a)) else zs == ys
    ensures zs == CodedAll(xs, useBase64, TimesIn(s.kids[..i + 1], a))
  {
    TimesInSnoc(s.kids, i, a);
    if a in Foot(s.kids[i]) {
      CodedAllAdd(xs, useBase64, TimesIn(s.kids[..i], a), Times(s.kids[i], a));
    } else {
      TimesOutside(s.kids[i], a);
    }
  }

  /** One more element has been dealt with: the slices it reaches have been rewritten again. */
  lemma Turn(s: Shape, i: nat, h: Heap, g: Heap, k: Heap, useBase64: bool)
    requires Nested(s) && s.Node? && i < |s.kids| && RewrittenUpTo(s, i, h, g, useBase64)
    requires Rewritten(s.kids[i], g, k, useBase64)
    requires forall a :: a in Foot(s) && a !in Foot(s.kids[i]) && a != s.elems ==> a in g && a in k && k[a] == g[a]
    ensures RewrittenUpTo(s, i + 1, h, k, useBase64)
  {
    forall a | a in Foot(s) && a != s.elems
      ensures a in h && a in k && k[a] == CodedAll(h[a], useBase64, TimesIn(s.kids[..i + 1], a))
    {
      TurnAt(s, i, h[a], g[a], k[a], a, useBase64);
    }
  }

  lemma FrontGrows(xs: seq<Value>, ys: seq<Value>, i: nat, useBase64: bool)
    requires FrontDone(xs, ys, i, useBase64) && i < |xs|
    ensures ys[i] == xs[i] && FrontDone(xs, ys[i := Coded(xs[i], useBase64, 1)], i + 1, useBase64)
  {
    assert ys[i] == ys[i..][0] && xs[i] == xs[i..][0];
    var zs := ys[i := Coded(xs[i], useBase64, 1)];
    assert zs[..i] == ys[..i] && zs[..i + 1] == zs[..i] + [zs[i]] && xs[..i + 1] == xs[..i] + [xs[i]];
    assert zs[i + 1..] == ys[i..][1..] && xs[i + 1..] == xs[i..][1..];
  }

  lemma EndOfLoop(s: Shape, h: Heap, g: Heap, useBase64: bool)
    requires Nested(s) && s.Node? && RewrittenUpTo(s, |s.kids|, h, g, useBase64)
    requires s.elems in h && s.elems in g && FrontDone(h[s.elems], g[s.elems], |h[s.elems]|, useBase64)
    ensures Rewritten(s, h, g, useBase64)
  {
    var xs, ys := h[s.elems], g[s.elems];
    assert xs[..|xs|] == xs && ys[..|xs|] == ys && s.kids[..|s.kids|] == s.kids;
    TimesInOutside(s, |s.kids|, s.elems);
  }

  /** convertValue, on the way out: "OK" stays readable, every other string becomes base64. */
  method ConvertValue(v: Value, useBase64: bool, ghost s: Shape) returns (out: Value)
    requires Nested(s) && Linked(v, s, Contents(s))
    modifies Foot(s)
    ensures out == Coded(v, useBase64, 1)
    ensures Rewritten(s, old(Contents(s)), Contents(s), useBase64)
    decreases s
  {
    if v.Scalar? {
      var x := v.reply;
      if x.Bulk? {
        if useBase64 {
          if x.bytes == OK {
            out := Scalar(Text(OK));
          } else {
            out := Scalar(Text(Encode(x.bytes)));
          }
        } else {
          out := Scalar(Text(x.bytes));
        }
      } else if x.Text? && useBase64 && x.text != OK {
        out := Scalar(Text(Encode(x.text)));
      } else {
        out := v;
      }
      assert out.reply == EncodedTimes(Encoded(x, useBase64), useBase64, 0);
    } else {
      var a := v.elems;
      ghost var h := Contents(s);
      StartOfLoop(s, h, useBase64);
      assert CodedAll([], useBase64, 1) == [];
      for i := 0 to a.Length
        invariant RewrittenUpTo(s, i, h, Contents(s), useBase64)
        invariant FrontDone(h[a], Contents(s)[a], i, useBase64)
      {
        ghost var t, g := s.kids[i], Contents(s);
        KidLinked(v, s, i, h, g, Contents(t), useBase64);
        FrontGrows(h[a], g[a], i, useBase64);
        var x := ConvertValue(a[i], useBase64, t);
        Turn(s, i, h, g, Contents(s), useBase64);
        a[i] := x;
        assert Contents(s)[a] == g[a][i := x];
      }
      EndOfLoop(s, h, Contents(s), useBase64);
      out := v;
    }
  }

  // --- replies in a heap that is a value ---

  /** The value `v`, laid out as `s`, is the reply `r` in `h`. */
  ghost predicate HoldsIn(v: Value, s: Shape, r: Reply, h: Heap)
    decreases s
  {
    match s
    case Leaf => v == Scalar(r) && !r.List?
    case Node(a, kids, _) =>
      && v == Slice(a) && a in h && r.List? && |h[a]| == |kids| == |r.items|
      && forall i :: 0 <= i < |kids| ==> HoldsIn(h[a][i], kids[i], r.items[i], h)
  }

  lemma {:induction false} HoldsNow(v: Value, s: Shape, r: Reply, h: Heap)
    requires Nested(s) && forall a :: a in Foot(s) ==> a in h && h[a] == a[..]
    ensures Holds(v, s, r) <==> HoldsIn(v, s, r, h)
    decreases s
  {
    if s.Node? && r.List? && s.elems.Length == |s.kids| == |r.items| {
      forall i | 0 <= i < |s.kids|
        ensures Holds(s.elems[i], s.kids[i], r.items[i]) <==> HoldsIn(h[s.elems][i], s.kids[i], r.items[i], h)
      {
        HoldsNow(s.elems[i], s.kids[i], r.items[i], h);
      }
    }
  }

  lemma {:induction false} HoldsLinked(v: Value, s: Shape, r: Reply, h: Heap)
    requires HoldsIn(v, s, r, h)
    ensures Linked(v, s, h)
    decreases s
  {
    if s.Node? {
      forall i | 0 <= i < |s.kids| ensures Linked(h[s.elems][i], s.kids[i], h) {
        HoldsLinked(h[s.elems][i], s.kids[i], r.items[i], h);
      }
    }
  }

  /** The reply seen in `s` when the slices of `root` are rewritten; `n` times for what holds `s` itself. */
  ghost function Seen(s: Shape, r: Reply, n: nat, root: Shape, useBase64: bool): Reply
    decreases s
  {
    match s
    case Leaf => EncodedTimes(r, useBase64, n)
    case Node(a, kids, _) =>
      if r.List? && |r.items| == |kids| then
        List(seq(|kids|, i requires 0 <= i < |kids| => Seen(kids[i], r.items[i], Times(root, a), root, useBase64)))
      else r
  }

  lemma {:induction false} SeenHolds(
    v: Value, s: Shape, r: Reply, n: nat, root: Shape, h: Heap, g: Heap, useBase64: bool)
    requires Nested(s) && HoldsIn(v, s, r, h) && Foot(s) <= Foot(root) && Rewritten(root, h, g, useBase64)
    ensures HoldsIn(Coded(v, useBase64, n), s, Seen(s, r, n, root, useBase64), g)
    decreases s
  {
    if s.Leaf? {
      TimesKeepsScalars(r, useBase64, n);
    } else {
      var a := s.elems;
      forall i | 0 <= i < |s.kids|
        ensures HoldsIn(g[a][i], s.kids[i], Seen(s.kids[i], r.items[i], Times(root, a), root, useBase64), g)
      {
        SeenHolds(h[a][i], s.kids[i], r.items[i], Times(root, a), root, h, g, useBase64);
      }
    }
  }

  // --- when no slice is reached twice ---

  lemma TimesOfKid(s: Shape, i: nat, a: array<Value>)
    requires NoAlias(s) && s.Node? && i < |s.kids| && a in Foot(s.kids[i])
    ensures Times(s, a) == Times(s.kids[i], a)
  {
    OnlyInKid(s, i, |s.kids|, a);
    assert s.kids[..|s.kids|] == s.kids;
  }

  lemma {:induction false} OnlyInKid(s: Shape, i: nat, n: nat, a: array<Value>)
    requires NoAlias(s) && s.Node? && i < |s.kids| && a in Foot(s.kids[i]) && n <= |s.kids|
    ensures TimesIn(s.kids[..n], a) == if i < n then Times(s.kids[i], a) else 0
    decreases n
  {
    if n > 0 {
      OnlyInKid(s, i, n - 1, a);
      TimesInSnoc(s.kids, n - 1, a);
      if i != n - 1 {
        assert Apart(s.kids[i], s.kids[n - 1]);
        TimesOutside(s.kids[n - 1], a);
      }
    }
  }

  /** In a tree, what is seen is every string encoded once. */
  lemma {:induction false} SeenInTree(s: Shape, r: Reply, v: Value, h: Heap, root: Shape, useBase64: bool)
    requires NoAlias(s) && HoldsIn(v, s, r, h)
    requires forall a :: a in Foot(s) ==> Times(root, a) == Times(s, a)
    ensures Seen(s, r, 1, root, useBase64) == Encoded(r, useBase64)
    decreases s
  {
    if s.Leaf? {
      assert EncodedTimes(Encoded(r, useBase64), useBase64, 0) == Encoded(r, useBase64);
    } else {
      var a := s.elems;
      TimesInOutside(s, |s.kids|, a);
      assert s.kids[..|s.kids|] == s.kids && Times(root, a) == 1;
      forall i | 0 <= i < |s.kids|
        ensures Seen(s.kids[i], r.items[i], 1, root, useBase64) == Encoded(r.items[i], useBase64)
      {
        forall b | b in Foot(s.kids[i]) ensures Times(root, b) == Times(s.kids[i], b) {
          TimesOfKid(s, i, b);
        }
        SeenInTree(s.kids[i], r.items[i], h[a][i], h, root, useBase64);
      }
      assert Seen(s, r, 1, root, useBase64).items == Encoded(r, useBase64).items;
    }
  }

  /** So a tree of slices ends as the pure map of what it was. */
  lemma TreeEncoded(v: Value, s: Shape, r: Reply, h: Heap, g: Heap, useBase64: bool)
    requires NoAlias(s) && HoldsIn(v, s, r, h) && Rewritten(s, h, g, useBase64)
    ensures HoldsIn(Coded(v, useBase64, 1), s, Encoded(r, useBase64), g)
  {
    SeenHolds(v, s, r, 1, s, h, g, useBase64);
    SeenInTree(s, r, v, h, s, useBase64);
  }

  lemma Grown(a: array<Value>, kids: seq<Shape>, reached: set<array<Value>>, t: Shape)
    requires a in reached && NoAlias(Node(a, kids, reached)) && NoAlias(t) && Foot(t) !! reached
    ensures NoAlias(Node(a, kids + [t], reached + Foot(t)))
  {
    var more := kids + [t];
    forall i | 0 <= i < |more|
      ensures NoAlias(more[i]) && Foot(more[i]) <= reached + Foot(t) && a !in Foot(more[i])
    {
      assert i < |kids| ==> more[i] == kids[i];
    }
    forall i, j | 0 <= i < |more| && 0 <= j < |more| && i != j ensures Apart(more[i], more[j]) {
      assert i < |kids| ==> Foot(kids[i]) <= reached;
      assert j < |kids| ==> Foot(kids[j]) <= reached;
      assert i < |kids| && j < |kids| ==> Apart(kids[i], kids[j]);
    }
  }

  /** The reply reader allocates a slice of its own for every array it receives. */
  method ReadReply(r: Reply) returns (v: Value, ghost s: Shape)
    ensures NoAlias(s) && Holds(v, s, r) && fresh(Foot(s))
    decreases r
  {
    if !r.List? {
      return Scalar(r), Leaf;
    }
    var a := new Value[|r.items|](_ => Scalar(Nil));
    ghost var kids: seq<Shape> := [];
    ghost var reached: set<array<Value>> := {a};
    for i := 0 to a.Length
      invariant |kids| == i && a in reached && fresh(reached) && NoAlias(Node(a, kids, reached))
      invariant forall k :: 0 <= k < i ==> Holds(a[k], kids[k], r.items[k])
    {
      var x, t := ReadReply(r.items[i]);
      Grown(a, kids, reached, t);
      kids, reached := kids + [t], reached + Foot(t);
      a[i] := x;
    }
    v, s := Slice(a), Node(a, kids, reached);
  }

  // --- answers ---

  /** What a handler answers: a result, an error, or the answers to a list of commands. */
  datatype Data<T> = Success(result: T) | Failure(error: Bytes) | Batch(answers: seq<Data<T>>)

  function Answer(r: Reply): Data<Reply> {
    if r.Error? then Failure(r.message) else Success(Plain(r, false))
  }

  function EncodedData(d: Data<Reply>, useBase64: bool): Data<Reply> {
    match d
    case Success(r) => Success(Encoded(r, useBase64))
    case Failure(_) => d
    case Batch(ds) => Batch(seq(|ds|, i requires 0 <= i < |ds| => EncodedData(ds[i], useBase64)))
  }

  /** The answer to one reply: its message if it is an error, else a result that shows it. */
  predicate AnswersReply(r: Reply, d: Data<Reply>, useBase64: bool) {
    if r.Error? then d == Failure(r.message) else d.Success? && Shows(r, d.result, useBase64)
  }

  lemma AnswerAnswers(r: Reply)
    ensures AnswersReply(r, Answer(r), false)
  {
    PlainShows(r);
  }

  /** `e` is `d` as it is marshalled: errors as they are, results encoded, lists answer by answer. */
  predicate Marshals(d: Data<Reply>, e: Data<Reply>, useBase64: bool) {
    match d
    case Success(p) => e.Success? && (IsPlain(p) ==> Shows(p, e.result, useBase64))
    case Failure(_) => e == d
    case Batch(ds) =>
      e.Batch? && |e.answers| == |ds| && forall i :: 0 <= i < |ds| ==> Marshals(ds[i], e.answers[i], useBase64)
  }

  lemma {:induction false} PlainIsShown(p: Reply)
    requires IsPlain(p)
    ensures Shows(p, p, false)
  {
    if p.List? {
      forall i | 0 <= i < |p.items| ensures Shows(p.items[i], p.items[i], false) {
        PlainIsShown(p.items[i]);
      }
    }
  }

  lemma {:induction false} DataMarshals(d: Data<Reply>, useBase64: bool)
    ensures Marshals(d, EncodedData(d, useBase64), useBase64)
  {
    match d
    case Success(p) =>
      if IsPlain(p) {
        PlainIsShown(p);
        EncodedShows(p, p, useBase64);
      }
    case Failure(_) =>
    case Batch(ds) =>
      forall i | 0 <= i < |ds| ensures Marshals(ds[i], EncodedData(d, useBase64).answers[i], useBase64) {
        DataMarshals(ds[i], useBase64);
      }
  }

  /** What the client gets for a reply, after both steps. */
  lemma MarshalledAnswers(r: Reply, useBase64: bool)
    ensures AnswersReply(r, EncodedData(Answer(r), useBase64), useBase64)
  {
    if !r.Error? {
      PlainShows(r);
      EncodedShows(r, Plain(r, false), useBase64);
    }
  }

  datatype Layout = One(shape: Shape) | Many(parts: seq<Layout>, reached: set<array<Value>>)

  function FootOf(l: Layout): set<array<Value>> {
    if l.One? then Foot(l.shape) else l.reached
  }

  ghost predicate Disjoint(l: Layout, m: Layout) {
    FootOf(l) !! FootOf(m)
  }

  ghost predicate Unshared(l: Layout) {
    match l
    case One(s) => NoAlias(s)
    case Many(parts, reached) =>
      && (forall i :: 0 <= i < |parts| ==> Unshared(parts[i]) && FootOf(parts[i]) <= reached)
      && (forall i, j :: 0 <= i < |parts| && 0 <= j < |parts| && i != j ==> Disjoint(parts[i], parts[j]))
  }

  /** The answer `d`, laid out as `l`, is currently `p`. */
  ghost predicate Carries(d: Data<Value>, l: Layout, p: Data<Reply>)
    requires Unshared(l)
    reads FootOf(l)
    decreases l
  {
    match l
    case One(s) =>
      || (d.Success? && p.Success? && Holds(d.result, s, p.result))
      || (d.Failure? && p.Failure? && d.error == p.error)
    case Many(parts, _) =>
      && d.Batch? && p.Batch?
      && |parts| == |d.answers| == |p.answers|
      && forall i :: 0 <= i < |parts| ==> Carries(d.answers[i], parts[i], p.answers[i])
  }

  method EncodeResponseData(d: Data<Value>, useBase64: bool, ghost l: Layout, ghost p: Data<Reply>)
    returns (out: Data<Value>)
    requires Unshared(l) && Carries(d, l, p)
    modifies FootOf(l)
    ensures Carries(out, l, EncodedData(p, useBase64)) && Marshals(p, EncodedData(p, useBase64), useBase64)
    decreases l
  {
    DataMarshals(p, useBase64);
    if d.Success? {
      ghost var s, h := l.shape, Contents(l.shape);
      HoldsNow(d.result, s, p.result, h);
      HoldsLinked(d.result, s, p.result, h);
      var x := ConvertValue(d.result, useBase64, s);
      TreeEncoded(d.result, s, p.result, h, Contents(s), useBase64);
      HoldsNow(x, s, Encoded(p.result, useBase64), Contents(s));
      out := Success(x);
    } else if d.Batch? {
      var done := [];
      for i := 0 to |d.answers|
        invariant |done| == i
        invariant forall k :: 0 <= k < i ==> Carries(done[k], l.parts[k], EncodedData(p.answers[k], useBase64))
        invariant forall k :: i <= k < |d.answers| ==> Carries(d.answers[k], l.parts[k], p.answers[k])
      {
        assert Unshared(l.parts[i]);
        var x := EncodeResponseData(d.answers[i], useBase64, l.parts[i], p.answers[i]);
        forall k | 0 <= k < |d.answers| && k != i ensures Unshared(l.parts[k]) && Disjoint(l.parts[i], l.parts[k]) {
        }
        done := done + [x];
      }
      out := Batch(done);
    } else {
      out := d;
    }
  }

  /** The result of one command, from the wire to the value that is marshalled. */
  method Respond(r: Reply, useBase64: bool) returns (out: Data<Value>, ghost l: Layout)
    ensures Unshared(l) && fresh(FootOf(l))
    ensures Carries(out, l, EncodedData(Answer(r), useBase64))
    ensures AnswersReply(r, EncodedData(Answer(r), useBase64), useBase64)
  {
    MarshalledAnswers(r, useBase64);
    var v, s := ReadReply(r);
    l := One(s);
    if v.Scalar? && v.reply.Error? {
      return Failure(v.reply.message), l;
    }
    var x := ConvertRedisResult(v, false, s, r);
    out := EncodeResponseData(Success(x), useBase64, l, Answer(r));
  }

  // --- the client ---

  /** Reading a marshalled string leaf: "OK" is itself, anything else is base64. */
  function ClientText(t: Bytes): Option<Bytes> {
    if t == OK then Some(OK) else Decode(t)
  }

  predicate ClientCanRead(r: Reply) {
    match r
    case Text(t) => ClientText(t).Some?
    case List(items) => forall i :: 0 <= i < |items| ==> ClientCanRead(items[i])
    case _ => true
  }

  function ClientReads(r: Reply): Reply
    requires ClientCanRead(r)
  {
    match r
    case Text(t) => Text(ClientText(t).value)
    case List(items) => List(seq(|items|, i requires 0 <= i < |items| => ClientReads(items[i])))
    case _ => r
  }

  lemma TextRecovered(t: Bytes)
    ensures ClientText(EncodedText(t)) == Some(t)
  {
    DecodeEncode(t);
    EncodedLength(t);
  }

  /** No bulk strings and no errors: all strings are text. */
  predicate IsPlain(r: Reply) {
    match r
    case Bulk(_) => false
    case Error(_) => false
    case List(items) => forall i :: 0 <= i < |items| ==> IsPlain(items[i])
    case _ => true
  }

  lemma {:induction false} ConvertedIsPlain(r: Reply, useBase64: bool)
    ensures IsPlain(Plain(r, useBase64))
    ensures Plain(Plain(r, false), useBase64) == Plain(r, false)
  {
    if r.List? {
      var plain := Plain(r, false);
      forall i | 0 <= i < |r.items|
        ensures IsPlain(Plain(r.items[i], useBase64))
        ensures Plain(plain.items[i], useBase64) == plain.items[i]
      {
        ConvertedIsPlain(r.items[i], useBase64);
      }
      assert Plain(plain, useBase64).items == plain.items;
    }
  }

  lemma {:induction false} EncodedIsPlain(p: Reply)
    requires IsPlain(p)
    ensures IsPlain(Encoded(p, true))
  {
    if p.List? {
      forall i | 0 <= i < |p.items| ensures IsPlain(Encoded(p.items[i], true)) {
        EncodedIsPlain(p.items[i]);
      }
    }
  }

  lemma {:induction false} ClientUndoes(p: Reply)
    requires IsPlain(p)
    ensures ClientCanRead(Encoded(p, true)) && ClientReads(Encoded(p, true)) == p
  {
    if p.List? {
      var sent := Encoded(p, true);
      forall i | 0 <= i < |p.items|
        ensures ClientCanRead(sent.items[i]) && ClientReads(sent.items[i]) == p.items[i]
      {
        ClientUndoes(p.items[i]);
      }
      assert ClientReads(sent).items == p.items;
    } else if p.Text? {
      TextRecovered(p.text);
    }
  }

  /** Whatever Redis replied, the client reads back its plain form from the base64 answer. */
  lemma ClientRecovers(r: Reply)
    ensures ClientCanRead(Encoded(Plain(r, false), true))
    ensures ClientReads(Encoded(Plain(r, false), true)) == Plain(r, false)
    ensures Shows(r, ClientReads(Encoded(Plain(r, false), true)), false)
  {
    PlainShows(r);
    ConvertedIsPlain(r, false);
    ClientUndoes(Plain(r, false));
  }

  // --- a slice reached twice ---

  predicate OnlyOkOrEmpty(p: Reply) {
    match p
    case Text(t) => t == OK || t == []
    case List(items) => forall i :: 0 <= i < |items| ==> OnlyOkOrEmpty(items[i])
    case _ => true
  }

  lemma {:induction false} UnchangedByEncoding(p: Reply)
    requires IsPlain(p)
    ensures Encoded(p, true) == p <==> OnlyOkOrEmpty(p)
  {
    if p.List? {
      var sent := Encoded(p, true);
      forall i | 0 <= i < |p.items| ensures sent.items[i] == p.items[i] <==> OnlyOkOrEmpty(p.items[i]) {
        UnchangedByEncoding(p.items[i]);
      }
      assert sent == p <==> sent.items == p.items;
    } else if p.Text? {
      FixedPointIsEmpty(p.text);
    }
  }

  /**
   * A slice that the answer reached twice would be encoded twice. The client then recovers the
   * reply exactly when encoding leaves every string in it alone.
   */
  lemma EncodedTwice(p: Reply)
    requires IsPlain(p)
    ensures var twice := Encoded(Encoded(p, true), true);
      ClientCanRead(twice) && (ClientReads(twice) == p <==> OnlyOkOrEmpty(p))
  {
    EncodedIsPlain(p);
    ClientUndoes(Encoded(p, true));
    UnchangedByEncoding(p);
  }

  // --- slices reached along several paths ---

  function TextOf(p: Reply): Bytes {
    if p.Text? then p.text else []
  }

  /** Every further encoding makes a text longer, unless it is "OK" or empty. */
  lemma {:induction false} EncodingLengthens(t: Bytes, n: nat)
    requires t != OK && t != []
    ensures EncodedTimes(Text(t), true, n).Text?
    ensures |TextOf(EncodedTimes(Text(t), true, n))| >= |t| + n
    decreases n
  {
    if n > 0 {
      EncodedLength(t);
      assert |Encode(t)| > |t|;
      EncodingLengthens(Encode(t), n - 1);
    }
  }

  lemma {:induction false} EncodingKeeps(p: Reply, n: nat)
    requires IsPlain(p) && !p.List? && OnlyOkOrEmpty(p)
    ensures EncodedTimes(p, true, n) == p
    decreases n
  {
    if n > 0 {
      UnchangedByEncoding(p);
      EncodingKeeps(p, n - 1);
    }
  }

  lemma {:induction false} TimesIsPlain(p: Reply, n: nat)
    requires IsPlain(p) && !p.List?
    ensures IsPlain(EncodedTimes(p, true, n))
    decreases n
  {
    if n > 0 {
      EncodedIsPlain(p);
      TimesIsPlain(Encoded(p, true), n - 1);
    }
  }

  lemma OneMoreTime(p: Reply, n: nat)
    requires n >= 1
    ensures EncodedTimes(p, true, n) == Encoded(EncodedTimes(p, true, n - 1), true)
  {
    var q := EncodedTimes(p, true, n - 1);
    EncodedTimesAdd(p, true, n - 1, 1);
    assert EncodedTimes(q, true, 1) == EncodedTimes(Encoded(q, true), true, 0);
  }

  lemma UnchangedByTimes(p: Reply, m: nat)
    requires IsPlain(p) && !p.List?
    ensures EncodedTimes(p, true, m) == p <==> m == 0 || OnlyOkOrEmpty(p)
  {
    if OnlyOkOrEmpty(p) {
      EncodingKeeps(p, m);
    } else if m > 0 {
      EncodingLengthens(p.text, m);
    }
  }

  /** A scalar that was encoded n times is recovered exactly if that was once, or does nothing to it. */
  lemma LeafRecovered(p: Reply, n: nat)
    requires IsPlain(p) && !p.List? && n >= 1
    ensures var e := EncodedTimes(p, true, n);
      ClientCanRead(e) && (ClientReads(e) == p <==> n == 1 || OnlyOkOrEmpty(p))
  {
    OneMoreTime(p, n);
    TimesIsPlain(p, n - 1);
    ClientUndoes(EncodedTimes(p, true, n - 1));
    UnchangedByTimes(p, n - 1);
  }

  /** Strings in slices of `root` that are reached more than once are "OK" or empty. */
  ghost predicate SharesOnlyOkOrEmpty(s: Shape, r: Reply, n: nat, root: Shape)
    decreases s
  {
    match s
    case Leaf => n == 1 || OnlyOkOrEmpty(r)
    case Node(a, kids, _) =>
      r.List? && |r.items| == |kids| ==>
        forall i :: 0 <= i < |kids| ==> SharesOnlyOkOrEmpty(kids[i], r.items[i], Times(root, a), root)
  }

  lemma {:induction false} TimesInAtLeast(kids: seq<Shape>, i: nat, n: nat, a: array<Value>)
    requires i < n <= |kids|
    ensures TimesIn(kids[..n], a) >= Times(kids[i], a)
    decreases n
  {
    TimesInSnoc(kids, n - 1, a);
    if i < n - 1 {
      TimesInAtLeast(kids, i, n - 1, a);
    }
  }

  lemma KidReachedNoMore(s: Shape, i: nat, a: array<Value>)
    requires s.Node? && i < |s.kids|
    ensures Times(s, a) >= Times(s.kids[i], a)
  {
    TimesInAtLeast(s.kids, i, |s.kids|, a);
    assert s.kids[..|s.kids|] == s.kids;
  }

  lemma {:induction false} SeenRecovered(v: Value, s: Shape, r: Reply, n: nat, root: Shape, h: Heap)
    requires HoldsIn(v, s, r, h) && IsPlain(r) && n >= 1
    requires forall a :: Times(root, a) >= Times(s, a)
    ensures var e := Seen(s, r, n, root, true);
      ClientCanRead(e) && (ClientReads(e) == r <==> SharesOnlyOkOrEmpty(s, r, n, root))
    decreases s
  {
    if s.Leaf? {
      LeafRecovered(r, n);
    } else {
      var a, m, e := s.elems, Times(root, s.elems), Seen(s, r, n, root, true);
      forall i | 0 <= i < |s.kids|
        ensures ClientCanRead(e.items[i])
        ensures ClientReads(e.items[i]) == r.items[i] <==> SharesOnlyOkOrEmpty(s.kids[i], r.items[i], m, root)
      {
        forall b ensures Times(root, b) >= Times(s.kids[i], b) {
          KidReachedNoMore(s, i, b);
        }
        SeenRecovered(h[a][i], s.kids[i], r.items[i], m, root, h);
      }
      assert ClientCanRead(e);
      assert ClientReads(e) == r <==> ClientReads(e).items == r.items;
    }
  }

  /**
   * After convertValue, the client recovers a plain reply exactly if every string in a slice that
   * the reply reaches along more than one path is "OK" or empty.
   */
  lemma RecoveredIff(v: Value, s: Shape, r: Reply, h: Heap, g: Heap)
    requires Nested(s) && HoldsIn(v, s, r, h) && IsPlain(r) && Rewritten(s, h, g, true)
    ensures var e := Seen(s, r, 1, s, true);
      && HoldsIn(Coded(v, true, 1), s, e, g)
      && ClientCanRead(e) && (ClientReads(e) == r <==> SharesOnlyOkOrEmpty(s, r, 1, s))
  {
    SeenHolds(v, s, r, 1, s, h, g, true);
    SeenRecovered(v, s, r, 1, s, h);
  }

  /** For example, with one slice held twice, everything in it is reached twice as often. */
  lemma HeldTwice(outer: array<Value>, t: Shape, reached: set<array<Value>>, a: array<Value>)
    requires a != outer
    ensures Times(Node(outer, [t, t], reached), a) == 2 * Times(t, a)
  {
    assert [t, t][..1] == [t] && [t][..0] == [];
    assert TimesIn([t], a) == Times(t, a);
  }
}
