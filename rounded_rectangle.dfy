/**
 * The RoundedRectangle component (RoundedRectangle.swift): a solid or gradient
 * fill with rounded corners and an optional stroke, drawn into an image whose
 * shape is decided here. The drawing itself (Core Graphics) is not modelled;
 * the image is described by the decisions the code takes.
 */
module RoundedRectangleComponent {
  import opened Wrappers
  import opened Geometry

  /** A UIColor, compared by value. */
  type Color = nat

  datatype GradientDirection = Horizontal | Vertical

  datatype RoundedRectangle = RoundedRectangle(
    colors: seq<Color>,
    cornerRadius: Option<real>,
    gradientDirection: GradientDirection,
    stroke: Option<real>,
    strokeColor: Option<Color>)

  /** `init(colors:...)`, with `gradientDirection` defaulting to horizontal at the call site. */
  function WithColors(colors: seq<Color>, cornerRadius: Option<real>, gradientDirection: GradientDirection,
                      stroke: Option<real>, strokeColor: Option<Color>): (r: RoundedRectangle)
    ensures r.colors == colors && r.cornerRadius == cornerRadius && r.gradientDirection == gradientDirection
    ensures r.stroke == stroke && r.strokeColor == strokeColor
  {
    RoundedRectangle(colors, cornerRadius, gradientDirection, stroke, strokeColor)
  }

  /** `init(color:...)`: a one-colour list, horizontal direction. */
  function WithColor(color: Color, cornerRadius: Option<real>, stroke: Option<real>, strokeColor: Option<Color>): (r: RoundedRectangle)
    ensures r.colors == [color] && |r.colors| == 1
    ensures r.gradientDirection == Horizontal
    ensures r.cornerRadius == cornerRadius && r.stroke == stroke && r.strokeColor == strokeColor
  {
    WithColors([color], cornerRadius, Horizontal, stroke, strokeColor)
  }

  /** `==`: colors, corner radius, direction, stroke, stroke colour. */
  predicate Equal(lhs: RoundedRectangle, rhs: RoundedRectangle)
    ensures Equal(lhs, rhs) <==> lhs == rhs
  {
    if lhs.colors != rhs.colors then false
    else if lhs.cornerRadius != rhs.cornerRadius then false
    else if lhs.gradientDirection != rhs.gradientDirection then false
    else if lhs.stroke != rhs.stroke then false
    else if lhs.strokeColor != rhs.strokeColor then false
    else true
  }

  /** The radius used: the given one, or half the smaller side of the available size. */
  function EffectiveCornerRadius(cornerRadius: Option<real>, availableSize: Size): (r: real)
    ensures cornerRadius.Some? ==> r == cornerRadius.value
    ensures cornerRadius.None? ==>
              r * 2.0 <= availableSize.width && r * 2.0 <= availableSize.height &&
              (r * 2.0 == availableSize.width || r * 2.0 == availableSize.height)
  {
    cornerRadius.GetOr(Min(availableSize.width, availableSize.height) * 0.5)
  }

  /** The side of the square single-colour image: twice the larger of stroke (or 0) and radius. */
  function SolidImageSide(stroke: Option<real>, cornerRadius: real): (r: real)
    ensures r >= 2.0 * cornerRadius && r >= 2.0 * stroke.GetOr(0.0)
    ensures r == 2.0 * cornerRadius || r == 2.0 * stroke.GetOr(0.0)
  {
    Max(stroke.GetOr(0.0), cornerRadius) * 2.0
  }

  /** Evenly spaced gradient stops: `n` values i / (n - 1). */
  function EvenStops(n: nat): (r: seq<real>)
    requires n > 1
  {
    seq(n, i => (i as real) / ((n - 1) as real))
  }

  lemma EvenStopsSpan(n: nat)
    requires n > 1
    ensures |EvenStops(n)| == n
    ensures EvenStops(n)[0] == 0.0 && EvenStops(n)[n - 1] == 1.0
    ensures forall i, j :: 0 <= i < j < n ==> EvenStops(n)[i] < EvenStops(n)[j]
    ensures forall i :: 0 <= i < n ==> 0.0 <= EvenStops(n)[i] <= 1.0
  {
    var stops := EvenStops(n);
    var d := (n - 1) as real;
    assert stops[n - 1] == d / d == 1.0;
    forall i, j | 0 <= i < j < n
      ensures stops[i] < stops[j]
    {
      DivideMonotone(i as real, j as real, d);
    }
    forall i | 0 <= i < n
      ensures 0.0 <= stops[i] <= 1.0
    {
      DivideBetween(i as real, d);
    }
  }

  lemma DivideMonotone(a: real, b: real, d: real)
    requires a < b && d > 0.0
    ensures a / d < b / d
  {
    assert b / d - a / d == (b - a) / d;
  }

  lemma DivideBetween(a: real, d: real)
    requires 0.0 <= a <= d && d > 0.0
    ensures 0.0 <= a / d <= 1.0
  {
    assert a / d * d == a;
  }

  /**
   * The loop building `locations`: `delta * i` for i below the colour count, with
   * `delta = 1 / (count - 1)`. Only reached with more than one colour.
   */
  method GradientLocations(count: nat) returns (locations: seq<real>)
    requires count > 1
    ensures locations == EvenStops(count)
  {
    var delta := 1.0 / ((count - 1) as real);
    locations := [];
    for i := 0 to count
      invariant |locations| == i
      invariant forall k :: 0 <= k < i ==> locations[k] == (k as real) / ((count - 1) as real)
    {
      locations := locations + [delta * (i as real)];
    }
  }

  // ---------------------------------------------------------------------------
  // The image `View.update` draws.

  /** What the inner ellipse of a stroked single-colour image is filled with. */
  datatype InnerFill = FillColor(color: Color) | Clear

  datatype ImageContent =
    /** An ellipse filling the square, with an optional inner ellipse inset by the stroke. */
    | Ellipse(outer: Color, inner: Option<(real, InnerFill)>)
    /** A linear gradient from the top-left corner to `end`, clipped to the rounded rect.
        `clearStroke` is the stroke when positive. The code then resets the clip, adds a
        rounded-rect path inset by the stroke, and fills the whole image rectangle in the clear
        blend mode; a rectangle fill ignores the path, so the stroke only sizes an unused path
        and the whole image, gradient included, ends up clear. */
    | Gradient(colors: seq<Color>, locations: seq<real>, end: Point, clearStroke: Option<real>)

  /** A stretchable image: its size, cap widths (`Int(cornerRadius)`), and content. */
  datatype Image = Image(size: Size, leftCapWidth: int, topCapHeight: int, content: ImageContent)

  /** The stroke, when it is positive. */
  function PositiveStroke(stroke: Option<real>): (r: Option<real>)
    ensures r.Some? <==> stroke.Some? && stroke.value > 0.0
    ensures r.Some? ==> r == stroke
  {
    match stroke
    case Some(s) => if s > 0.0 then Some(s) else None
    case None => None
  }

  /** The image for one colour: a square stretchable image holding an ellipse. */
  function SolidImage(component: RoundedRectangle, cornerRadius: real): (r: Image)
    requires |component.colors| == 1
    ensures r.size.width == r.size.height == SolidImageSide(component.stroke, cornerRadius)
    ensures r.leftCapWidth == r.topCapHeight == TruncateToInt(cornerRadius)
    ensures r.content.Ellipse?
    ensures r.content.outer == if component.strokeColor.Some? then component.strokeColor.value else component.colors[0]
    ensures r.content.inner.Some? <==> component.stroke.Some? && component.stroke.value > 0.0
    ensures r.content.inner.Some? ==>
              r.content.inner.value.0 == component.stroke.value &&
              (r.content.inner.value.1 == Clear <==> component.strokeColor.None?) &&
              (r.content.inner.value.1 != Clear ==> r.content.inner.value.1 == FillColor(component.colors[0]))
  {
    var color := component.colors[0];
    var side := SolidImageSide(component.stroke, cornerRadius);
    var inner := match PositiveStroke(component.stroke)
                 case Some(s) => Some((s, if component.strokeColor.Some? then FillColor(color) else Clear))
                 case None => None;
    Image(Size(side, side), TruncateToInt(cornerRadius), TruncateToInt(cornerRadius),
          Ellipse(component.strokeColor.GetOr(color), inner))
  }

  /** The image for several colours: the available size, filled with a gradient. */
  function GradientImage(component: RoundedRectangle, availableSize: Size, cornerRadius: real): (r: Image)
    requires |component.colors| > 1
    ensures r.size == availableSize
    ensures r.leftCapWidth == r.topCapHeight == TruncateToInt(cornerRadius)
    ensures r.content.Gradient? && r.content.colors == component.colors
    ensures |r.content.locations| == |component.colors|
    ensures r.content.locations[0] == 0.0 && r.content.locations[|component.colors| - 1] == 1.0
    ensures component.gradientDirection == Horizontal ==> r.content.end == Point(availableSize.width, 0.0)
    ensures component.gradientDirection == Vertical ==> r.content.end == Point(0.0, availableSize.height)
    ensures r.content.locations == EvenStops(|component.colors|)
    ensures forall i :: 0 <= i < |component.colors| ==>
              r.content.locations[i] == (i as real) / ((|component.colors| - 1) as real)
    ensures r.content.clearStroke.Some? <==> component.stroke.Some? && component.stroke.value > 0.0
    ensures r.content.clearStroke == PositiveStroke(component.stroke)
    ensures r.content.clearStroke.Some? ==> r.content.clearStroke.value == component.stroke.value
  {
    EvenStopsSpan(|component.colors|);
    var end := if component.gradientDirection == Horizontal then Point(availableSize.width, 0.0)
               else Point(0.0, availableSize.height);
    Image(availableSize, TruncateToInt(cornerRadius), TruncateToInt(cornerRadius),
          Gradient(component.colors, EvenStops(|component.colors|), end, PositiveStroke(component.stroke)))
  }

  /** The image drawn, if any: none of the branches runs for an empty colour list. */
  function Render(component: RoundedRectangle, availableSize: Size): (r: Option<Image>)
    ensures r.None? <==> |component.colors| == 0
    ensures r.Some? ==> r.value.leftCapWidth == TruncateToInt(EffectiveCornerRadius(component.cornerRadius, availableSize))
    ensures r.Some? ==> (r.value.content.Ellipse? <==> |component.colors| == 1)
  {
    var cornerRadius := EffectiveCornerRadius(component.cornerRadius, availableSize);
    if |component.colors| == 1 then Some(SolidImage(component, cornerRadius))
    else if |component.colors| > 1 then Some(GradientImage(component, availableSize, cornerRadius))
    else None
  }

  /** The branch on the colour count, and the shape of the image each branch produces. */
  lemma RenderBranches(component: RoundedRectangle, availableSize: Size)
    ensures Render(component, availableSize).None? <==> |component.colors| == 0
    ensures |component.colors| == 1 ==>
              var img := Render(component, availableSize).value;
              var r := EffectiveCornerRadius(component.cornerRadius, availableSize);
              img.size.width == img.size.height == SolidImageSide(component.stroke, r) &&
              img.size.width >= 2.0 * r
    ensures |component.colors| > 1 ==>
              var img := Render(component, availableSize).value;
              img.size == availableSize && img.content.Gradient? &&
              |img.content.locations| == |component.colors| &&
              img.content.locations[0] == 0.0 &&
              img.content.locations[|component.colors| - 1] == 1.0
  {
    if |component.colors| > 1 { EvenStopsSpan(|component.colors|); }
  }

  class View {
    var component: Option<RoundedRectangle>
    var image: Option<Image>

    constructor ()
      ensures component.None? && image.None?
    {
      component := None;
      image := None;
    }

    /**
     * `update(component:availableSize:transition:)`. The stored component is compared
     * but never assigned, so the comparison always passes and the image is redrawn on
     * every call; with no colours the old image stays.
     */
    method Update(newComponent: RoundedRectangle, availableSize: Size) returns (size: Size)
      modifies this`image
      ensures size == availableSize
      ensures component == old(component)
      ensures old(component) != Some(newComponent) && |newComponent.colors| > 0 ==>
                image == Render(newComponent, availableSize)
      ensures old(component) == Some(newComponent) || |newComponent.colors| == 0 ==> image == old(image)
    {
      if component != Some(newComponent) {
        var cornerRadius := EffectiveCornerRadius(newComponent.cornerRadius, availableSize);
        if |newComponent.colors| == 1 {
          image := Some(SolidImage(newComponent, cornerRadius));
        } else if |newComponent.colors| > 1 {
          var locations := GradientLocations(|newComponent.colors|);
          var end := if newComponent.gradientDirection == Horizontal then Point(availableSize.width, 0.0)
                     else Point(0.0, availableSize.height);
          image := Some(Image(availableSize, TruncateToInt(cornerRadius), TruncateToInt(cornerRadius),
                              Gradient(newComponent.colors, locations, end, PositiveStroke(newComponent.stroke))));
        }
      }
      size := availableSize;
    }
  }
}
