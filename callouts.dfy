/** The callout helpers that draw growth brackets on a figure: the centre point between two
    axis positions, the square growth line (three segments and an optional label) and the
    dashed growth lines (two horizontal segments, an arrow and a label). */
module Callouts {
  import opened Wrappers
  import opened Figures

  /** `(b - a) / 2.0 + a`. */
  function Midpoint(a: real, b: real): real {
    (b - a) / 2.0 + a
  }

  /** The midpoint lies halfway: it does not depend on the order of the two points and lies
      between them. */
  lemma MidpointHalfway(a: real, b: real)
    ensures Midpoint(a, b) == Midpoint(b, a)
    ensures 2.0 * Midpoint(a, b) == a + b
    ensures a <= b ==> a <= Midpoint(a, b) <= b
  {
  }

  /** `list(vals).index(c)`: the first position holding `c`. */
  function FirstIndex(vals: seq<Coord>, c: Coord): (i: nat)
    requires c in vals
    ensures i < |vals| && vals[i] == c
    ensures c !in vals[..i]
  {
    if vals[0] == c then 0
    else
      var j := FirstIndex(vals[1..], c);
      assert vals[1..][..j] == vals[1..j + 1];
      1 + j
  }

  /** The three segments of a square growth line, drawn in order. */
  function SquareSegments(x0: Coord, x1: Coord, y0: Coord, y1: Coord, yTop: Coord): seq<Shape> {
    [Line(x0, y0, x0, yTop, DefaultLine), Line(x0, yTop, x1, yTop, DefaultLine), Line(x1, yTop, x1, y1, DefaultLine)]
  }

  /** The segments form one path from `(x0, y0)` up to `yTop`, across to `x1` and down to
      `(x1, y1)`: each starts where the previous one ends. */
  lemma SquarePath(x0: Coord, x1: Coord, y0: Coord, y1: Coord, yTop: Coord)
    ensures var s := SquareSegments(x0, x1, y0, y1, yTop);
      && |s| == 3
      && s[0].x0 == x0 && s[0].y0 == y0 && s[2].x1 == x1 && s[2].y1 == y1
      && (forall i :: 0 <= i < 2 ==> s[i].x1 == s[i + 1].x0 && s[i].y1 == s[i + 1].y0)
      && s[0].x0 == s[0].x1 && s[1].y0 == s[1].y1 == yTop && s[2].x0 == s[2].x1
  {
  }

  /** The two horizontal segments of the dashed growth lines, drawn in order. */
  function DashSegments(x0: Coord, x1: Coord, xEnd: Coord, y0: Coord, y1: Coord): seq<Shape> {
    [Line(x0, y0, xEnd, y0, DefaultDashLine), Line(x1, y1, xEnd, y1, DefaultDashLine)]
  }

  class Callout {
    var figure: Figure

    /** The default styles read from the configuration are not part of this model. */
    constructor (figure: Figure)
      ensures this.figure == figure
    {
      this.figure := figure;
    }

    /** `_get_center_point(a, b, axis)`: the midpoint of two numbers; for a category `a`, the
        midpoint of the first positions of `a` and `b` among the first trace's values on
        `axis`. A missing trace is an IndexError, a value not on the axis a ValueError, and
        a number paired with a category a TypeError. */
    function GetCenterPoint(a: Coord, b: Coord, axis: Axis): (r: Result<real, PyError>)
      reads this, figure
      ensures a.Num? && b.Num? ==> r.Success? && 2.0 * r.value == a.x + b.x
      ensures a.Num? && b.Cat? ==> r == Failure(TypeError)
      ensures a.Cat? && figure.traces == [] ==> r == Failure(IndexError)
      ensures a.Cat? && figure.traces != [] ==>
        var vals := AxisValues(figure.traces[0], axis);
        && (r.Success? <==> a in vals && b in vals)
        && (r.Failure? ==> r.error == ValueError)
        && (r.Success? ==> exists i, j ::
              && 0 <= i < |vals| && vals[i] == a && a !in vals[..i]
              && 0 <= j < |vals| && vals[j] == b && b !in vals[..j]
              && 2.0 * r.value == (i + j) as real)
    {
      if a.Cat? then
        if figure.traces == [] then Failure(IndexError)
        else
          var vals := AxisValues(figure.traces[0], axis);
          if a !in vals || b !in vals then Failure(ValueError)
          else
            var i, j := FirstIndex(vals, a), FirstIndex(vals, b);
            Success(Midpoint(i as real, j as real))
      else if b.Cat? then Failure(TypeError)
      else Success(Midpoint(a.x, b.x))
    }

    /** `add_square_growth_line`: appends the three segments, then, when there is a text, a
        label at the centre of `x0` and `x1` on height `yTop`; returns the same figure. If the
        centre cannot be found the call fails after the segments were drawn. */
    method AddSquareGrowthLine(x0: Coord, x1: Coord, y0: Coord, y1: Coord, yTop: Coord, text: Option<string>)
      returns (r: Result<Figure, PyError>)
      modifies figure
      ensures figure.shapes == old(figure.shapes) + SquareSegments(x0, x1, y0, y1, yTop)
      ensures figure.traces == old(figure.traces)
      ensures figure.height == old(figure.height) && figure.width == old(figure.width)
      ensures var c := old(GetCenterPoint(x0, x1, XAxis));
        if text.None? then r == Success(figure) && figure.annotations == old(figure.annotations)
        else if c.Success? then
          && r == Success(figure)
          && figure.annotations == old(figure.annotations) + [TextNote(Num(c.value), yTop, text)]
        else r == Failure(c.error) && figure.annotations == old(figure.annotations)
    {
      var segments := SquareSegments(x0, x1, y0, y1, yTop);
      var k := 0;
      while k < |segments|
        invariant 0 <= k <= |segments|
        invariant figure.shapes == old(figure.shapes) + segments[..k]
        invariant figure.traces == old(figure.traces) && figure.annotations == old(figure.annotations)
        invariant figure.height == old(figure.height) && figure.width == old(figure.width)
      {
        figure.AddShape(segments[k]);
        assert segments[..k + 1] == segments[..k] + [segments[k]];
        k := k + 1;
      }
      assert segments[..k] == segments;
      if text.Some? {
        var c := GetCenterPoint(x0, x1, XAxis);
        if c.Failure? {
          return Failure(c.error);
        }
        figure.AddAnnotation(TextNote(Num(c.value), yTop, text));
      }
      return Success(figure);
    }

    /** `add_dash_growth_lines`: appends a horizontal segment from `x0` to `xEnd` at height
        `y0` and one from `x1` to `xEnd` at height `y1`, an arrow at `xEnd` from `y0` to `y1`,
        and the text at the centre of `y0` and `y1`. The centre is looked up on the default
        axis "x", also for the heights. */
    method AddDashGrowthLines(x0: Coord, x1: Coord, xEnd: Coord, y0: Coord, y1: Coord, text: Option<string>)
      returns (r: Result<Figure, PyError>)
      modifies figure
      ensures figure.shapes == old(figure.shapes) + DashSegments(x0, x1, xEnd, y0, y1)
      ensures figure.traces == old(figure.traces)
      ensures figure.height == old(figure.height) && figure.width == old(figure.width)
      ensures var c := old(GetCenterPoint(y0, y1, XAxis));
        var arrow := ArrowNote(xEnd, xEnd, y1, y0);
        if c.Success? then
          && r == Success(figure)
          && figure.annotations == old(figure.annotations) + [arrow, TextNote(xEnd, Num(c.value), text)]
        else r == Failure(c.error) && figure.annotations == old(figure.annotations) + [arrow]
    {
      var segments := DashSegments(x0, x1, xEnd, y0, y1);
      var k := 0;
      while k < |segments|
        invariant 0 <= k <= |segments|
        invariant figure.shapes == old(figure.shapes) + segments[..k]
        invariant figure.traces == old(figure.traces) && figure.annotations == old(figure.annotations)
        invariant figure.height == old(figure.height) && figure.width == old(figure.width)
      {
        figure.AddShape(segments[k]);
        assert segments[..k + 1] == segments[..k] + [segments[k]];
        k := k + 1;
      }
      assert segments[..k] == segments;
      figure.AddAnnotation(ArrowNote(xEnd, xEnd, y1, y0));
      var c := GetCenterPoint(y0, y1, XAxis);
      if c.Failure? {
        return Failure(c.error);
      }
      figure.AddAnnotation(TextNote(xEnd, Num(c.value), text));
      return Success(figure);
    }
  }
}
