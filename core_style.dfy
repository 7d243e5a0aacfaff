// The style values of the current generation (`core/flex/DrStyle.swift`): plain value
// structs, all `Equatable`, so equality is componentwise.
module CoreStyle {
  import opened Wrappers
  import opened UIKitModel

  /** `CAGradientLayerType`. */
  datatype GradientType = Axial | Radial | Conic

  /** `DrRoundStyle`: either one radius for every corner, or one per corner. */
  datatype RoundStyle = RoundStyle(
    radius: Option<real>,
    topLeft: Option<real>,
    topRight: Option<real>,
    bottomLeft: Option<real>,
    bottomRight: Option<real>)

  /** `DrBorderStyle`. */
  datatype BorderStyle = BorderStyle(width: real, color: Color)

  /** `DrShadowStyle`; the spread radius is optional in this generation. */
  datatype ShadowStyle = ShadowStyle(
    color: Color,
    offset: Size,
    blurRadius: real,
    opacity: real,
    spreadRadius: Option<real>)

  /** `DrGradientStyle`; colours are kept as the colours they were given. */
  datatype GradientStyle = GradientStyle(
    colors: Option<seq<Color>>,
    locations: Option<seq<real>>,
    startPoint: Option<Point>,
    endPoint: Option<Point>,
    kind: Option<GradientType>)

  /** `DrStyle`, the set of styles applied to one view. */
  datatype DrStyle = DrStyle(
    round: Option<RoundStyle>,
    border: Option<BorderStyle>,
    shadow: Option<ShadowStyle>,
    gradient: Option<GradientStyle>)

  /** `isSameRadius`: a single radius was given, or all four corners were given and agree. */
  function IsSameRadius(r: RoundStyle): (same: bool)
    ensures r.radius.Some? ==> same
    ensures r.radius.None? ==>
      (same <==> r.topLeft.Some? && r.topLeft == r.topRight == r.bottomLeft == r.bottomRight)
  {
    if r.radius.Some? then true
    else match (r.topLeft, r.topRight, r.bottomLeft, r.bottomRight)
      case (Some(tl), Some(tr), Some(bl), Some(br)) => tl == tr && tr == bl && bl == br
      case _ => false
  }

  /** `sameRadius`: the radius every corner has, when there is one. */
  function SameRadius(r: RoundStyle): (v: Option<real>)
    ensures v.Some? <==> IsSameRadius(r)
    ensures r.radius.Some? ==> v == r.radius
    ensures r.radius.None? && v.Some? ==>
      r.topLeft == v && r.topRight == v && r.bottomLeft == v && r.bottomRight == v
  {
    if r.radius.Some? then r.radius
    else if IsSameRadius(r) && r.topLeft.Some? then r.topLeft
    else None
  }

  /** `DrRoundStyle(radius:)`. */
  function UniformRound(radius: real): (r: RoundStyle)
    ensures r.radius == Some(radius)
    ensures r.topLeft == r.topRight == r.bottomLeft == r.bottomRight == None
  {
    RoundStyle(Some(radius), None, None, None, None)
  }

  /** `DrRoundStyle(topLeft:topRight:bottomLeft:bottomRight:)`. */
  function CornerRound(topLeft: real, topRight: real, bottomLeft: real, bottomRight: real): (r: RoundStyle)
    ensures r.radius == None
    ensures r.topLeft == Some(topLeft) && r.topRight == Some(topRight)
    ensures r.bottomLeft == Some(bottomLeft) && r.bottomRight == Some(bottomRight)
  {
    RoundStyle(None, Some(topLeft), Some(topRight), Some(bottomLeft), Some(bottomRight))
  }

  /** A uniform round style reports its radius as the common one. */
  lemma UniformRoundIsSame(radius: real)
    ensures IsSameRadius(UniformRound(radius))
    ensures SameRadius(UniformRound(radius)) == Some(radius)
  {
  }

  /** A per-corner round style has a common radius exactly when its four corners agree. */
  lemma CornerRoundIsSameIffEqual(tl: real, tr: real, bl: real, br: real)
    ensures IsSameRadius(CornerRound(tl, tr, bl, br)) <==> tl == tr && tr == bl && bl == br
    ensures SameRadius(CornerRound(tl, tr, bl, br)) ==
      (if tl == tr && tr == bl && bl == br then Some(tl) else None)
  {
  }

  /** `DrShadowStyle(offset:blurRadius:spreadRadius:color:opacity:)`, whose spread radius
      defaults to none and whose opacity defaults to 1. */
  function NewShadow(offset: Size, blurRadius: real, color: Color,
                     spreadRadius: Option<real> := None, opacity: real := 1.0): (s: ShadowStyle)
    ensures s.offset == offset && s.blurRadius == blurRadius && s.color == color
    ensures s.spreadRadius == spreadRadius && s.opacity == opacity
  {
    ShadowStyle(color, offset, blurRadius, opacity, spreadRadius)
  }

  /** `DrShadowStyle` built with its defaults has no spread and full opacity. */
  lemma ShadowDefaults(offset: Size, blurRadius: real, color: Color)
    ensures NewShadow(offset, blurRadius, color).spreadRadius == None
    ensures NewShadow(offset, blurRadius, color).opacity == 1.0
  {
  }

  /** `DrGradientStyle()`: nothing set. */
  function EmptyGradient(): (g: GradientStyle)
    ensures g.colors == None && g.locations == None
    ensures g.startPoint == None && g.endPoint == None && g.kind == None
  {
    GradientStyle(None, None, None, None, None)
  }

  /** `DrGradientStyle(colors:locations:)`: the colours, the locations when given, and
      nothing else. */
  function ColorGradient(colors: seq<Color>, locations: Option<seq<real>> := None): (g: GradientStyle)
    ensures g.colors == Some(colors) && g.locations == locations
    ensures g.startPoint == None && g.endPoint == None && g.kind == None
  {
    GradientStyle(Some(colors), locations, None, None, None)
  }

  /** How many of the four styles a `DrStyle` carries. */
  function ComponentCount(s: DrStyle): (n: nat)
    ensures n <= 4
    ensures n == 0 <==> s.round == None && s.border == None && s.shadow == None && s.gradient == None
  {
    (if s.round.Some? then 1 else 0) + (if s.border.Some? then 1 else 0)
    + (if s.shadow.Some? then 1 else 0) + (if s.gradient.Some? then 1 else 0)
  }

  /** `DrStyle()`. */
  function EmptyStyle(): (s: DrStyle)
    ensures ComponentCount(s) == 0
  {
    DrStyle(None, None, None, None)
  }

  /** `DrStyle(cornerRadius:)`: only a uniform round style. */
  function RoundedStyle(cornerRadius: real): (s: DrStyle)
    ensures ComponentCount(s) == 1
    ensures s.round == Some(UniformRound(cornerRadius))
    ensures SameRadius(s.round.value) == Some(cornerRadius)
  {
    DrStyle(Some(UniformRound(cornerRadius)), None, None, None)
  }

  /** `DrStyle(border:color:)`: only a border. */
  function BorderedStyle(width: real, color: Color): (s: DrStyle)
    ensures ComponentCount(s) == 1
    ensures s.border == Some(BorderStyle(width, color))
  {
    DrStyle(None, Some(BorderStyle(width, color)), None, None)
  }

  /** `DrStyle(shadow:)`: only a shadow. */
  function ShadowedStyle(shadow: ShadowStyle): (s: DrStyle)
    ensures ComponentCount(s) == 1
    ensures s.shadow == Some(shadow)
  {
    DrStyle(None, None, Some(shadow), None)
  }

  /** `DrStyle(gradient:)`: only a gradient. */
  function GradientFilledStyle(gradient: GradientStyle): (s: DrStyle)
    ensures ComponentCount(s) == 1
    ensures s.gradient == Some(gradient)
  {
    DrStyle(None, None, None, Some(gradient))
  }

  /** Two styles from different convenience initialisers never compare equal, and two from
      the same one compare equal exactly when their arguments do. */
  lemma ConvenienceStylesAreDistinct(radius: real, width: real, color: Color,
                                     shadow: ShadowStyle, gradient: GradientStyle,
                                     radius2: real, width2: real, color2: Color,
                                     shadow2: ShadowStyle, gradient2: GradientStyle)
    ensures RoundedStyle(radius) != BorderedStyle(width, color)
    ensures RoundedStyle(radius) != ShadowedStyle(shadow)
    ensures RoundedStyle(radius) != GradientFilledStyle(gradient)
    ensures BorderedStyle(width, color) != ShadowedStyle(shadow)
    ensures BorderedStyle(width, color) != GradientFilledStyle(gradient)
    ensures ShadowedStyle(shadow) != GradientFilledStyle(gradient)
    ensures EmptyStyle() != RoundedStyle(radius)
    ensures RoundedStyle(radius) == RoundedStyle(radius2) <==> radius == radius2
    ensures BorderedStyle(width, color) == BorderedStyle(width2, color2) <==> width == width2 && color == color2
    ensures ShadowedStyle(shadow) == ShadowedStyle(shadow2) <==> shadow == shadow2
    ensures GradientFilledStyle(gradient) == GradientFilledStyle(gradient2) <==> gradient == gradient2
  {
  }
}
