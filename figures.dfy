/** The chart figure the callouts draw on and the style sizes, reduced to what they touch:
    the first trace's axis values, the appended shapes and annotations, and the layout size. */
module Figures {
  import opened Wrappers

  /** An axis position: a number, or a category of a categorical axis. */
  datatype Coord = Num(x: real) | Cat(name: string)

  /** One trace's axis values (`figure.data[i]["x"]`, `["y"]`). */
  datatype Trace = Trace(x: seq<Coord>, y: seq<Coord>)

  datatype Axis = XAxis | YAxis

  function AxisValues(t: Trace, axis: Axis): seq<Coord> {
    match axis
    case XAxis => t.x
    case YAxis => t.y
  }

  /** Which default style dictionary a line was drawn with. */
  datatype LineStyle = DefaultLine | DefaultDashLine

  /** A line shape from `(x0, y0)` to `(x1, y1)`. */
  datatype Shape = Line(x0: Coord, y0: Coord, x1: Coord, y1: Coord, style: LineStyle)

  /** A text annotation at `(x, y)`, or an arrow from `(ax, ay)` to `(x, y)`. */
  datatype Annotation =
    | TextNote(x: Coord, y: Coord, text: Option<string>)
    | ArrowNote(x: Coord, ax: Coord, y: Coord, ay: Coord)

  class Figure {
    var traces: seq<Trace>
    var shapes: seq<Shape>
    var annotations: seq<Annotation>
    var height: Option<int>
    var width: Option<int>

    constructor (traces: seq<Trace>)
      ensures this.traces == traces && shapes == [] && annotations == []
      ensures height == None && width == None
    {
      this.traces := traces;
      shapes := [];
      annotations := [];
      height := None;
      width := None;
    }

    /** `figure.add_shape(...)`. */
    method AddShape(s: Shape)
      modifies this
      ensures shapes == old(shapes) + [s]
      ensures traces == old(traces) && annotations == old(annotations)
      ensures height == old(height) && width == old(width)
    {
      shapes := shapes + [s];
    }

    /** `figure.add_annotation(...)`. */
    method AddAnnotation(a: Annotation)
      modifies this
      ensures annotations == old(annotations) + [a]
      ensures traces == old(traces) && shapes == old(shapes)
      ensures height == old(height) && width == old(width)
    {
      annotations := annotations + [a];
    }

    /** `figure.update_layout(height=..., width=...)`. */
    method UpdateLayout(h: int, w: int)
      modifies this
      ensures height == Some(h) && width == Some(w)
      ensures traces == old(traces) && shapes == old(shapes) && annotations == old(annotations)
    {
      height := Some(h);
      width := Some(w);
    }
  }
}
