/** `Style._set_width_and_height`: the figure size for a slide layout. */
module Style {
  import opened Wrappers
  import opened Figures

  datatype Size = Size(width: int, height: int)

  /** The size each slide layout name gives the figure; a name outside the three reduced
      layouts (for example "slide_100%" or "slide_wide") keeps the full 960 by 540 slide. */
  function SlideSize(layout: string): (s: Size)
    ensures s.width <= 960 && s.height <= 540
    ensures layout == "slide_75%" ==> s == Size(576, 432)
    ensures layout == "slide_50%" ==> s == Size(480, 540)
    ensures layout == "slide_25%" ==> s == Size(480, 270)
    ensures layout !in {"slide_75%", "slide_50%", "slide_25%"} ==> s == Size(960, 540)
  {
    if layout == "slide_75%" then Size(576, 432)
    else if layout == "slide_50%" then Size(480, 540)
    else if layout == "slide_25%" then Size(480, 270)
    else Size(960, 540)
  }

  /** Python's `int(x)` on a number: truncation toward zero. */
  function Trunc(x: real): int {
    if x >= 0.0 then x.Floor else -((-x).Floor)
  }

  class Style {
    var figure: Figure
    var slideLayout: string
    var plotWidth: int
    var plotHeight: int

    constructor (figure: Figure, slideLayout: string)
      ensures this.figure == figure && this.slideLayout == slideLayout
    {
      this.figure := figure;
      this.slideLayout := slideLayout;
      plotWidth := 960;
      plotHeight := 540;
    }

    /** Resets the plot size to the full slide, then scales the figure's layout by the
        multipliers of the named layout (the 75% layout also shrinks by a further 0.8). */
    method SetWidthAndHeight(slideLayout: string)
      modifies this, figure
      ensures plotWidth == 960 && plotHeight == 540
      ensures figure == old(figure) && this.slideLayout == old(this.slideLayout)
      ensures figure.width == Some(SlideSize(slideLayout).width)
      ensures figure.height == Some(SlideSize(slideLayout).height)
      ensures figure.traces == old(figure.traces) && figure.shapes == old(figure.shapes)
      ensures figure.annotations == old(figure.annotations)
    {
      plotWidth := 960;
      plotHeight := 540;
      var heightMultiplier, widthMultiplier := 1.0, 1.0;
      if slideLayout == "slide_75%" {
        heightMultiplier := 1.0 * 0.8;
        widthMultiplier := 0.75 * 0.8;
      } else if slideLayout == "slide_50%" {
        heightMultiplier := 1.0;
        widthMultiplier := 0.5;
      } else if slideLayout == "slide_25%" {
        heightMultiplier := 0.5;
        widthMultiplier := 0.5;
      }
      figure.UpdateLayout(Trunc(plotHeight as real * heightMultiplier), Trunc(plotWidth as real * widthMultiplier));
    }
  }
}
