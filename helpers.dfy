/**
 * Random helpers, distances and positional sound, plus the JavaScript array
 * behaviour (`indexOf`, `splice`) that every `destroy` relies on.
 *
 * `Math.random()` is an oracle: an `Rng` owns a stream of draws in [0, 1)
 * and a cursor; every call consumes exactly one draw.
 */
module Helpers {
  import opened Constants

  datatype Option<T> = None | Some(value: T)

  /** A value `Math.random()` can return. */
  type Draw = r: real | 0.0 <= r < 1.0

  /** The `Math.random()` oracle: draw number `n` is `stream(n)`. */
  class Rng {
    const stream: nat -> Draw
    var next: nat

    constructor (stream: nat -> Draw)
      ensures this.stream == stream && next == 0
    {
      this.stream := stream;
      next := 0;
    }

    /** `Math.random()`: the next draw of the stream. */
    method Random() returns (r: Draw)
      modifies this`next
      ensures r == stream(old(next)) && next == old(next) + 1
    {
      r := stream(next);
      next := next + 1;
    }
  }

  /**
   * `n * d`, spelled as repeated addition so that reasoning about a draw
   * never needs nonlinear arithmetic; `ScaleIsProduct` relates it to `*`.
   */
  function Scale(n: int, d: real): real
    decreases if n < 0 then -n else n
  {
    if n == 0 then 0.0 else if n > 0 then Scale(n - 1, d) + d else Scale(n + 1, d) - d
  }

  lemma {:induction false} ScaleIsProduct(n: int, d: real)
    ensures Scale(n, d) == n as real * d
    decreases if n < 0 then -n else n
  {
    if n > 0 {
      ScaleIsProduct(n - 1, d);
    } else if n < 0 {
      ScaleIsProduct(n + 1, d);
    }
  }

  /** A draw in [0, 1) scaled by `n >= 1` lies in [0, n), and scaled by `-n` in (-n, 0]. */
  lemma {:induction false} ScaleBounds(n: nat, d: real)
    requires 0.0 <= d < 1.0
    ensures 0.0 <= Scale(n, d) <= n as real && -(n as real) <= Scale(-(n as int), d) <= 0.0
    ensures n >= 1 ==> Scale(n, d) < n as real && -(n as real) < Scale(-(n as int), d)
    decreases n
  {
    if n > 0 {
      ScaleBounds(n - 1, d);
    }
  }

  lemma ScaledFloorBounds(n: int, d: real)
    requires 0.0 <= d < 1.0
    ensures n >= 1 ==> 0 <= Scale(n, d).Floor <= n - 1
    ensures n <= 0 ==> n <= Scale(n, d).Floor <= 0
  {
    if n >= 1 {
      ScaleBounds(n, d);
    } else {
      ScaleBounds(-n, d);
    }
  }

  /**
   * `randInt(max, min)`: `min + floor((max + 1 - min) * draw)`. With the
   * arguments in the documented order it lies in [min, max]; with them
   * swapped (`min > max`) it lies in [max + 1, min].
   */
  function RandInt(max: int, min: int, draw: Draw): (r: int)
    ensures min <= max ==> min <= r <= max
    ensures max < min ==> max + 1 <= r <= min
  {
    ScaledFloorBounds(max + 1 - min, draw);
    min + Scale(max + 1 - min, draw).Floor
  }

  /** `randInt` with the default lower bound 0 reaches every value of [0, max]. */
  lemma RandIntReachesEveryValue(max: nat, v: nat)
    requires v <= max
    ensures RandInt(max, 0, v as real / (max + 1) as real) == v
  {
    var d := v as real / (max + 1) as real;
    ScaleIsProduct(max + 1, d);
    assert (max + 1) as real * d == v as real;
  }

  /** Draws one value of `randInt(max, min)` from the oracle. */
  method DrawInt(rng: Rng, max: int, min: int) returns (r: int)
    modifies rng`next
    ensures r == RandInt(max, min, rng.stream(old(rng.next))) && rng.next == old(rng.next) + 1
  {
    var d := rng.Random();
    r := RandInt(max, min, d);
  }

  /**
   * `randFloat(max, min)` as written: it scales the draw by `max + 1 - min`,
   * the width `randInt` needs for whole numbers, so it can land above `max`.
   */
  function RandFloat(max: real, min: real, draw: Draw): (r: real)
    ensures min <= max ==> min <= r < max + 1.0
  {
    Lerp(min, max + 1.0, draw);
    min + (max + 1.0 - min) * draw
  }

  /** A real in [min, max): the range the boss's explosions are meant to spread over. */
  function RandFloatWithin(max: real, min: real, draw: Draw): (r: real)
    ensures min <= max ==> min <= r <= max
    ensures min < max ==> r < max
  {
    Lerp(min, max, draw);
    min + (max - min) * draw
  }

  /** `lo + (hi - lo) * d` for a draw `d` lies in [lo, hi), or is `lo` when the two meet. */
  lemma Lerp(lo: real, hi: real, d: real)
    requires 0.0 <= d < 1.0
    ensures lo <= hi ==> lo <= lo + (hi - lo) * d <= hi
    ensures lo < hi ==> lo + (hi - lo) * d < hi
  {
    if lo <= hi {
      var w := hi - lo;
      NonnegMul(w, d);
      NonnegMul(w, 1.0 - d);
      assert w - w * d == w * (1.0 - d);
      if lo < hi {
        PosMul(w, 1.0 - d);
        assert w * d < w;
      }
    }
  }

  /** The sign of a product: the nonlinear step `Lerp` and `Base.ScaleMonotone` need stated on its own. */
  lemma PosMul(u: real, c: real)
    requires u > 0.0 && c > 0.0
    ensures u * c > 0.0
  {
  }

  /** The sign of a product of two non-negative reals. */
  lemma NonnegMul(u: real, c: real)
    requires u >= 0.0 && c >= 0.0
    ensures u * c >= 0.0
  {
  }

  /** Every draw past `(max - min) / (max + 1 - min)` takes `randFloat` beyond `max`. */
  lemma RandFloatOvershoots(max: real, min: real)
    requires min <= max
    ensures var d := (max - min + 0.5) / (max + 1.0 - min);
      0.0 <= d < 1.0 && RandFloat(max, min, d) == max + 0.5 && RandFloatWithin(max, min, d) <= max
  {
    var w := max + 1.0 - min;
    var d := (max - min + 0.5) / w;
    assert w * d == max - min + 0.5;
    assert d < 1.0 by {
      assert max - min + 0.5 < w;
    }
  }

  /** The element `randItem` picks from a non-empty array: the one at `randInt(length - 1)`. */
  function Pick<T>(a: seq<T>, draw: Draw): (r: T)
    requires |a| > 0
    ensures r in a
  {
    a[RandInt(|a| - 1, 0, draw)]
  }

  /** `randItem`: nothing for an empty array, otherwise the element at `randInt(length - 1)`. */
  function RandItem<T>(a: seq<T>, draw: Draw): (r: Option<T>)
    ensures r.None? <==> |a| == 0
    ensures r.Some? ==> r.value in a
  {
    if |a| == 0 then None else Some(Pick(a, draw))
  }

  /**
   * `randItem(FACING_4WAY)`, by quarters of the draw;
   * `RandFacingIsRandItem` shows that it is that pick.
   */
  function RandFacing(draw: Draw): Facing4Way
  {
    if draw < 0.25 then Up else if draw < 0.5 then Right else if draw < 0.75 then Down else Left
  }

  lemma RandFacingIsRandItem(draw: Draw)
    ensures RandItem(FACING_4WAY, draw) == Some(RandFacing(draw))
  {
    ScaleIsProduct(4, draw);
  }

  /** Draws one random element; an empty array consumes no draw. */
  method DrawItem<T>(rng: Rng, a: seq<T>) returns (r: Option<T>)
    modifies rng`next
    ensures |a| == 0 ==> r == None && rng.next == old(rng.next)
    ensures |a| > 0 ==> r == RandItem(a, rng.stream(old(rng.next))) && rng.next == old(rng.next) + 1
  {
    if |a| == 0 {
      r := None;
    } else {
      var d := rng.Random();
      r := RandItem(a, d);
    }
  }

  function Swap<T>(s: seq<T>, i: nat, j: nat): (r: seq<T>)
    requires i < |s| && j < |s|
    ensures |r| == |s|
  {
    s[i := s[j]][j := s[i]]
  }

  lemma SwapPermutes<T>(s: seq<T>, i: nat, j: nat)
    requires i < |s| && j < |s|
    ensures multiset(Swap(s, i, j)) == multiset(s)
  {
  }

  /** The Fisher-Yates passes for indices `i` down to 1, reading the stream from position `k` on. */
  function ShufflePasses<T>(s: seq<T>, i: nat, stream: nat -> Draw, k: nat): (r: seq<T>)
    requires i < |s|
    ensures |r| == |s|
    decreases i
  {
    if i == 0 then s
    else ShufflePasses(Swap(s, i, RandInt(i, 0, stream(k))), i - 1, stream, k + 1)
  }

  /** Every Fisher-Yates pass only swaps, so the passes permute their input. */
  lemma {:induction false} ShufflePassesPermutes<T>(s: seq<T>, i: nat, stream: nat -> Draw, k: nat)
    requires i < |s|
    ensures multiset(ShufflePasses(s, i, stream, k)) == multiset(s)
    decreases i
  {
    if i > 0 {
      var j := RandInt(i, 0, stream(k));
      SwapPermutes(s, i, j);
      ShufflePassesPermutes(Swap(s, i, j), i - 1, stream, k + 1);
    }
  }

  /** The order `shuffle` produces from the draws `stream(k)`, `stream(k + 1)`, ... */
  function Shuffled<T>(s: seq<T>, stream: nat -> Draw, k: nat): (r: seq<T>)
    ensures |r| == |s| && multiset(r) == multiset(s)
  {
    if |s| == 0 then s
    else
      ShufflePassesPermutes(s, |s| - 1, stream, k);
      ShufflePasses(s, |s| - 1, stream, k)
  }

  /** `shuffle`: Fisher-Yates on a private copy of the input, one draw per index from the last down to 1. */
  method Shuffle<T>(rng: Rng, items: seq<T>) returns (r: seq<T>)
    modifies rng`next
    ensures r == Shuffled(items, rng.stream, old(rng.next))
    ensures multiset(r) == multiset(items)
    ensures rng.next == old(rng.next) + (if |items| == 0 then 0 else |items| - 1)
  {
    var a := items;
    ghost var k0 := rng.next;
    var i := |a| - 1;
    while i > 0
      invariant -1 <= i < |a| == |items|
      invariant i < 0 ==> |items| == 0 && rng.next == k0
      invariant i >= 0 ==> rng.next == k0 + (|a| - 1 - i)
      invariant i >= 0 ==> ShufflePasses(a, i, rng.stream, rng.next) == ShufflePasses(items, |items| - 1, rng.stream, k0)
      decreases i
    {
      var j := DrawInt(rng, i, 0);
      a := Swap(a, i, j);
      i := i - 1;
    }
    r := a;
  }

  datatype Point = Point(x: real, y: real)

  function Abs(v: real): real { if v < 0.0 then -v else v }

  function MinReal(a: real, b: real): real { if a <= b then a else b }

  function MaxReal(a: real, b: real): real { if a >= b then a else b }

  /** `Math.min` on whole numbers. */
  function MinInt(a: int, b: int): int { if a <= b then a else b }

  function MaxInt(a: int, b: int): int { if a >= b then a else b }

  /** `dist`: the Manhattan distance between two positions. */
  function Dist(a: Point, b: Point): (d: real)
    ensures d >= 0.0
    ensures d == 0.0 <==> a == b
    ensures d >= Abs(b.x - a.x) && d >= Abs(b.y - a.y)
  {
    Abs(b.x - a.x) + Abs(b.y - a.y)
  }

  lemma DistIsAMetric(a: Point, b: Point, c: Point)
    ensures Dist(a, b) == Dist(b, a)
    ensures Dist(a, c) <= Dist(a, b) + Dist(b, c)
  {
  }

  datatype Sound = Sound(pan: real, volume: real)

  /** `get3dSound`: stereo pan from the horizontal offset, volume falling off linearly with distance. */
  function Get3dSound(entity: Point, player: Point): (s: Sound)
    ensures -1.0 <= s.pan <= 1.0 && 0.0 <= s.volume <= 1.0
    ensures entity == player ==> s == Sound(0.0, 1.0)
    ensures Dist(entity, player) >= (2 * SCREEN_WIDTH) as real ==> s.volume == 0.0
    ensures entity.x == player.x ==> s.pan == 0.0
  {
    Sound(MinReal(1.0, MaxReal(-1.0, (entity.x - player.x) / SCREEN_WIDTH as real / 2.0)),
          1.0 - MinReal(1.0, Dist(entity, player) / SCREEN_WIDTH as real / 2.0))
  }

  /** `destroyComponent`: always hands back the empty reference that replaces the component. */
  function DestroyComponent<T>(c: Option<T>): (r: Option<T>)
    ensures r.None?
  {
    None
  }

  /** `indexOf`: the first position of `x`, or -1 when it is absent. */
  function IndexOf<T(==)>(s: seq<T>, x: T): (i: int)
    ensures -1 <= i < |s|
    ensures i == -1 <==> x !in s
    ensures i >= 0 ==> s[i] == x && forall k :: 0 <= k < i ==> s[k] != x
  {
    if |s| == 0 then -1
    else if s[0] == x then 0
    else
      var j := IndexOf(s[1..], x);
      if j == -1 then -1 else j + 1
  }

  /**
   * `s.splice(s.indexOf(x), 1)`: removes the first occurrence of `x`; when
   * `x` is absent the start -1 counts from the end and the LAST element goes.
   */
  function SpliceOut<T(==)>(s: seq<T>, x: T): (r: seq<T>)
    ensures |r| == if |s| == 0 then 0 else |s| - 1
    ensures x in s ==> multiset(r) == multiset(s) - multiset{x}
    ensures x !in s && |s| > 0 ==> r == s[..|s| - 1]
  {
    var i := IndexOf(s, x);
    if i >= 0 then
      assert s == s[..i] + [x] + s[i + 1..];
      s[..i] + s[i + 1..]
    else if |s| == 0 then s
    else s[..|s| - 1]
  }

  /** Dropping the element at `i` from a list without repeats removes exactly that value. */
  lemma DropDistinct<T>(s: seq<T>, i: int)
    requires forall i, j :: 0 <= i < j < |s| ==> s[i] != s[j]
    requires 0 <= i < |s|
    ensures forall y :: y in s[..i] + s[i + 1..] <==> y in s && y != s[i]
  {
    var r := s[..i] + s[i + 1..];
    forall y | y in r
      ensures y in s && y != s[i]
    {
      var k :| 0 <= k < |r| && r[k] == y;
      if k < i {
        assert y == s[k] && s[k] != s[i];
      } else {
        assert r[k] == s[i + 1..][k - i] == s[k + 1];
        assert s[i] != s[k + 1];
      }
    }
    forall y | y in s && y != s[i]
      ensures y in r
    {
      var k :| 0 <= k < |s| && s[k] == y;
      if k < i { assert r[k] == y; } else { assert r[k - 1] == y; }
    }
  }

  /** On a list without repeats, `SpliceOut` removes `x` and keeps every other element in order. */
  lemma SpliceOutOfDistinct<T>(s: seq<T>, x: T)
    requires forall i, j :: 0 <= i < j < |s| ==> s[i] != s[j]
    requires x in s
    ensures x !in SpliceOut(s, x)
    ensures forall y :: y in SpliceOut(s, x) <==> y in s && y != x
    ensures 0 <= IndexOf(s, x) < |s| && s[IndexOf(s, x)] == x &&
      SpliceOut(s, x) == s[..IndexOf(s, x)] + s[IndexOf(s, x) + 1..]
  {
    var i := IndexOf(s, x);
    assert SpliceOut(s, x) == s[..i] + s[i + 1..];
    DropDistinct(s, i);
  }
}
