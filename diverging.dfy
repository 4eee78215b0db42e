/** `create_diverging_color_list`: `n` colours running from a low colour through a middle
    colour to a high colour, spliced from two interpolated halves so that the middle colour
    is not shown twice. */
module Diverging {
  import opened Wrappers

  /** A colour as its three channel values (the tuple form the interpolation works on). */
  datatype Color = Color(r: real, g: real, b: real)

  /** Channel value `index` steps of `(hi - lo) / (k - 1)` above `lo`, computed exactly (the
      library computes it in floats, which can be off by a rounding step). */
  function LerpChannel(lo: real, hi: real, index: int, k: int): real
    requires k != 1
  {
    lo + index as real * ((hi - lo) / (k - 1) as real)
  }

  function Lerp(lo: Color, hi: Color, index: int, k: int): Color
    requires k != 1
  {
    Color(LerpChannel(lo.r, hi.r, index, k), LerpChannel(lo.g, hi.g, index, k), LerpChannel(lo.b, hi.b, index, k))
  }

  /** The charting library's `n_colors(lo, hi, k)`: `k` evenly spaced colours from `lo` to `hi`.
      It divides by `k - 1` before it builds the list, so `k == 1` is a ZeroDivisionError,
      and a `k` below 1 gives no colours. */
  function NColors(lo: Color, hi: Color, k: int): (r: Result<seq<Color>, PyError>)
    ensures r.Failure? <==> k == 1
    ensures r.Failure? ==> r.error == ZeroDivisionError
    ensures r.Success? ==> |r.value| == if k > 0 then k else 0
    ensures r.Success? && k >= 2 ==> r.value[0] == lo && r.value[k - 1] == hi
  {
    if k == 1 then Failure(ZeroDivisionError)
    else
      var c := if k > 0 then k else 0;
      EndpointsReached(lo, hi, k);
      Success(seq(c, i requires 0 <= i < c => Lerp(lo, hi, i, k)))
  }

  lemma EndpointsReached(lo: Color, hi: Color, k: int)
    requires k != 1
    ensures Lerp(lo, hi, 0, k) == lo && Lerp(lo, hi, k - 1, k) == hi
  {
    var m := (k - 1) as real;
    assert m * ((hi.r - lo.r) / m) == hi.r - lo.r;
    assert m * ((hi.g - lo.g) / m) == hi.g - lo.g;
    assert m * ((hi.b - lo.b) / m) == hi.b - lo.b;
  }

  /** Python's `s[:-1]`. */
  function DropLast<T>(s: seq<T>): seq<T> {
    if s == [] then [] else s[..|s| - 1]
  }

  /** Python's `s[1:]`. */
  function DropFirst<T>(s: seq<T>): seq<T> {
    if s == [] then [] else s[1..]
  }

  /** The number of colours each half is interpolated with: `ceil(n / 2) + 1` for even `n`,
      `ceil(n / 2)` for odd `n`. */
  function HalfLength(n: int): int {
    if n % 2 == 0 then n / 2 + 1 else (n + 1) / 2
  }

  /** `create_diverging_color_list(low, mid, high, n)`, with the colours already in tuple form.
      For even `n` the low half drops its last colour and the high half its first; for odd
      `n` only the high half drops its first. */
  function CreateDivergingColorList(low: Color, mid: Color, high: Color, n: int): (r: Result<seq<Color>, PyError>)
    ensures r.Failure? <==> n == 0 || n == 1
    ensures r.Failure? ==> r.error == ZeroDivisionError
    ensures r.Success? ==> |r.value| == if n >= 2 then n else 0
    ensures r.Success? && n >= 2 ==> r.value[0] == low && r.value[n - 1] == high
    ensures r.Success? && n >= 2 && n % 2 == 1 ==> r.value[(n - 1) / 2] == mid
  {
    var k := HalfLength(n);
    var lows, highs := NColors(low, mid, k), NColors(mid, high, k);
    if lows.Failure? || highs.Failure? then Failure(ZeroDivisionError)
    else if n % 2 == 0 then Success(DropLast(lows.value) + DropFirst(highs.value))
    else Success(lows.value + DropFirst(highs.value))
  }

  /** Every colour of the list, by position: the first `h` come from the low half, the
      last `h` from the high half past its first colour, and for odd `n` the middle one is
      `mid` itself; `h` is `n / 2` rounded down. For even `n`, neither half's end at `mid`
      survives: the low half stops one step short of it and the high half starts one step
      past it. */
  lemma DivergingAt(low: Color, mid: Color, high: Color, n: int, i: int)
    requires n >= 2 && 0 <= i < n
    ensures var r := CreateDivergingColorList(low, mid, high, n);
      var k, h := HalfLength(n), n / 2;
      && r.Success? && k == h + 1
      && (i < h ==> r.value[i] == Lerp(low, mid, i, k))
      && (n % 2 == 1 && i == h ==> r.value[i] == mid)
      && (i >= n - h ==> r.value[i] == Lerp(mid, high, i - (n - h) + 1, k))
  {
    var k := HalfLength(n);
    EndpointsReached(low, mid, k);
  }

  /** No channel of `a` exceeds the same channel of `b`. */
  predicate NotAbove(a: Color, b: Color) {
    a.r <= b.r && a.g <= b.g && a.b <= b.b
  }

  lemma LerpChannelMonotone(lo: real, hi: real, i: int, j: int, k: int)
    requires k >= 2 && lo <= hi && i <= j
    ensures LerpChannel(lo, hi, i, k) <= LerpChannel(lo, hi, j, k)
  {
    var d := (hi - lo) / (k - 1) as real;
    assert d >= 0.0;
    assert j as real * d - i as real * d == (j - i) as real * d;
  }

  lemma LerpMonotone(lo: Color, hi: Color, i: int, j: int, k: int)
    requires k >= 2 && NotAbove(lo, hi) && i <= j
    ensures NotAbove(Lerp(lo, hi, i, k), Lerp(lo, hi, j, k))
  {
    LerpChannelMonotone(lo.r, hi.r, i, j, k);
    LerpChannelMonotone(lo.g, hi.g, i, j, k);
    LerpChannelMonotone(lo.b, hi.b, i, j, k);
  }

  /** Channels that rise from `low` to `mid` to `high` rise along the whole list. */
  lemma DivergingMonotone(low: Color, mid: Color, high: Color, n: int, i: int, j: int)
    requires NotAbove(low, mid) && NotAbove(mid, high)
    requires n >= 2 && 0 <= i <= j < n
    ensures var r := CreateDivergingColorList(low, mid, high, n);
      r.Success? && NotAbove(r.value[i], r.value[j])
  {
    var k, h := HalfLength(n), n / 2;
    DivergingAt(low, mid, high, n, i);
    DivergingAt(low, mid, high, n, j);
    EndpointsReached(low, mid, k);
    EndpointsReached(mid, high, k);
    // Where each position sits against `mid`: below it in the low half, above it in the high half.
    if i < h {
      LerpMonotone(low, mid, i, k - 1, k);
    } else if i >= n - h {
      LerpMonotone(mid, high, 0, i - (n - h) + 1, k);
    }
    if j < h {
      LerpMonotone(low, mid, j, k - 1, k);
      LerpMonotone(low, mid, i, j, k);
    } else if j >= n - h {
      LerpMonotone(mid, high, 0, j - (n - h) + 1, k);
      if i >= n - h {
        LerpMonotone(mid, high, i - (n - h) + 1, j - (n - h) + 1, k);
      }
    }
  }

  lemma LerpChannelStrict(lo: real, hi: real, i: int, j: int, k: int)
    requires k >= 2 && lo < hi && i < j
    ensures LerpChannel(lo, hi, i, k) < LerpChannel(lo, hi, j, k)
  {
    var d := (hi - lo) / (k - 1) as real;
    assert d > 0.0;
    assert j as real * d - i as real * d == (j - i) as real * d;
  }

  /** For even `n`, `mid` itself is not in the list: when a channel of `mid` lies strictly
      between those of `low` and `high`, no colour of the list has that channel value. */
  lemma EvenOmitsMid(low: Color, mid: Color, high: Color, n: int, i: int)
    requires n >= 2 && n % 2 == 0 && 0 <= i < n
    requires low.r < mid.r < high.r
    ensures var r := CreateDivergingColorList(low, mid, high, n);
      r.Success? && r.value[i].r != mid.r
  {
    var k, h := HalfLength(n), n / 2;
    DivergingAt(low, mid, high, n, i);
    EndpointsReached(low, mid, k);
    EndpointsReached(mid, high, k);
    if i < h {
      LerpChannelStrict(low.r, mid.r, i, k - 1, k);
    } else {
      LerpChannelStrict(mid.r, high.r, 0, i - (n - h) + 1, k);
    }
  }
}
