// The style values of the earlier generation (`flex/DrStyle.swift`). They differ from the
// current ones: a border may have a width per edge, a shadow always has a spread radius,
// a style may carry a background colour, and `sameRadius` is computed differently.
module LegacyStyle {
  import opened Wrappers
  import opened UIKitModel
  import CoreStyle

  /** `DrRoundStyle`, with the same stored fields as the current one. */
  datatype RoundStyle = RoundStyle(
    radius: Option<real>,
    topLeft: Option<real>,
    topRight: Option<real>,
    bottomLeft: Option<real>,
    bottomRight: Option<real>)

  /** `DrBorderStyle`: one width for every edge, or one per edge. */
  datatype BorderStyle = BorderStyle(
    width: Option<real>,
    leftWidth: Option<real>,
    topWidth: Option<real>,
    rightWidth: Option<real>,
    bottomWidth: Option<real>,
    color: Color)

  /** `DrShadowStyle`, whose spread radius is a plain number here. */
  datatype ShadowStyle = ShadowStyle(
    color: Color,
    offset: Size,
    blurRadius: real,
    opacity: real,
    spreadRadius: real)

  /** `DrGradientStyle`, which has only the empty initialiser here. */
  datatype GradientStyle = GradientStyle(
    colors: Option<seq<Color>>,
    locations: Option<seq<real>>,
    startPoint: Option<Point>,
    endPoint: Option<Point>,
    kind: Option<CoreStyle.GradientType>)

  /** `DrStyle`, with a background colour besides the four styles. */
  datatype DrStyle = DrStyle(
    round: Option<RoundStyle>,
    border: Option<BorderStyle>,
    shadow: Option<ShadowStyle>,
    background: Option<Color>,
    gradient: Option<GradientStyle>)

  /** `isSameRadius`: the same rule as the current generation. */
  function IsSameRadius(r: RoundStyle): (same: bool)
    ensures r.radius.Some? ==> same
    ensures r.radius.None? ==>
      (same <==> r.topLeft.Some? && r.topLeft == r.topRight == r.bottomLeft == r.bottomRight)
  {
    if r.radius.Some? then true
    else match (r.topLeft, r.topRight, r.bottomLeft, r.bottomRight)
      case (Some(tl), Some(tr), Some(bl), Some(br)) => tl == tr && tr == bl && bl == br
      case _ => false
  }

  /** `sameRadius` as this generation writes it: with no single radius it answers with the
      top-left corner, without asking whether the corners agree. */
  function SameRadiusAsWritten(r: RoundStyle): (v: Option<real>)
    ensures r.radius.Some? ==> v == r.radius
    ensures r.radius.None? ==> v == r.topLeft
  {
    if r.radius.Some? then r.radius else r.topLeft
  }

  /** `sameRadius` as its name and the current generation mean it: a value exactly when
      every corner has that value. */
  function SameRadius(r: RoundStyle): (v: Option<real>)
    ensures v.Some? <==> IsSameRadius(r)
    ensures r.radius.Some? ==> v == r.radius
    ensures r.radius.None? && v.Some? ==>
      r.topLeft == v && r.topRight == v && r.bottomLeft == v && r.bottomRight == v
  {
    if r.radius.Some? then r.radius
    else if IsSameRadius(r) && r.topLeft.Some? then r.topLeft
    else None
  }

  /** `DrRoundStyle(topLeft:topRight:bottomLeft:bottomRight:)`. */
  function CornerRound(topLeft: real, topRight: real, bottomLeft: real, bottomRight: real): (r: RoundStyle)
    ensures r.radius == None
    ensures r.topLeft == Some(topLeft) && r.topRight == Some(topRight)
    ensures r.bottomLeft == Some(bottomLeft) && r.bottomRight == Some(bottomRight)
  {
    RoundStyle(None, Some(topLeft), Some(topRight), Some(bottomLeft), Some(bottomRight))
  }

  /** `DrRoundStyle(radius:)`. */
  function UniformRound(radius: real): (r: RoundStyle)
    ensures r.radius == Some(radius)
    ensures r.topLeft == r.topRight == r.bottomLeft == r.bottomRight == None
  {
    RoundStyle(Some(radius), None, None, None, None)
  }

  /** Corners 1, 2, 3, 4 differ, yet the written `sameRadius` reports 1 as their common
      radius. */
  lemma SameRadiusAsWrittenMisreports()
    ensures !IsSameRadius(CornerRound(1.0, 2.0, 3.0, 4.0))
    ensures SameRadiusAsWritten(CornerRound(1.0, 2.0, 3.0, 4.0)) == Some(1.0)
    ensures SameRadius(CornerRound(1.0, 2.0, 3.0, 4.0)) == None
  {
  }

  /** The written `sameRadius` agrees with the intended one whenever the corners do agree,
      and disagrees exactly when only some of the corners are missing or they differ while
      the top-left one is given. */
  lemma {:induction false} SameRadiusAsWrittenAgreesWhenSame(r: RoundStyle)
    ensures IsSameRadius(r) ==> SameRadiusAsWritten(r) == SameRadius(r)
    ensures SameRadiusAsWritten(r) != SameRadius(r) <==> !IsSameRadius(r) && r.topLeft.Some?
  {
    if r.radius.None? && IsSameRadius(r) {
      assert r.topLeft.Some?;
    }
  }

  /** The view of a legacy round style as a current one. */
  function ToCore(r: RoundStyle): (c: CoreStyle.RoundStyle)
    ensures c.radius == r.radius && c.topLeft == r.topLeft && c.topRight == r.topRight
    ensures c.bottomLeft == r.bottomLeft && c.bottomRight == r.bottomRight
  {
    CoreStyle.RoundStyle(r.radius, r.topLeft, r.topRight, r.bottomLeft, r.bottomRight)
  }

  /** Both generations decide `isSameRadius` alike, and the intended `sameRadius` here is the
      current generation's. */
  lemma GenerationsAgreeOnSameRadius(r: RoundStyle)
    ensures IsSameRadius(r) == CoreStyle.IsSameRadius(ToCore(r))
    ensures SameRadius(r) == CoreStyle.SameRadius(ToCore(r))
  {
  }

  /** `DrBorderStyle(width:color:)`: one width for every edge. */
  function WidthBorder(width: real, color: Color): (b: BorderStyle)
    ensures b.width == Some(width) && b.color == color
    ensures b.leftWidth == b.topWidth == b.rightWidth == b.bottomWidth == None
  {
    BorderStyle(Some(width), None, None, None, None, color)
  }

  /** `DrBorderStyle(edge:color:)`: each edge from the insets, no single width. */
  function EdgeBorder(edge: EdgeInsets, color: Color): (b: BorderStyle)
    ensures b.width == None && b.color == color
    ensures b.leftWidth == Some(edge.left) && b.topWidth == Some(edge.top)
    ensures b.rightWidth == Some(edge.right) && b.bottomWidth == Some(edge.bottom)
  {
    BorderStyle(None, Some(edge.left), Some(edge.top), Some(edge.right), Some(edge.bottom), color)
  }

  /** `DrBorderStyle(horizontal:vertical:color:)`: both side edges share one width, the top
      and bottom edges the other; either may be missing. */
  function AxisBorder(color: Color, horizontal: Option<real> := None,
                      vertical: Option<real> := None): (b: BorderStyle)
    ensures b.width == None && b.color == color
    ensures b.leftWidth == b.rightWidth == horizontal
    ensures b.topWidth == b.bottomWidth == vertical
  {
    BorderStyle(None, horizontal, vertical, horizontal, vertical, color)
  }

  /** An edge border with equal left and right and equal top and bottom insets is the axis
      border of those widths. */
  lemma SymmetricEdgeIsAxisBorder(edge: EdgeInsets, color: Color)
    requires edge.left == edge.right && edge.top == edge.bottom
    ensures EdgeBorder(edge, color) == AxisBorder(color, Some(edge.left), Some(edge.top))
  {
  }

  /** `DrShadowStyle(offset:blurRadius:spreadRadius:color:opacity:)`, whose spread radius
      defaults to 0 and whose opacity defaults to 1. */
  function NewShadow(offset: Size, blurRadius: real, color: Color,
                     spreadRadius: real := 0.0, opacity: real := 1.0): (s: ShadowStyle)
    ensures s.offset == offset && s.blurRadius == blurRadius && s.color == color
    ensures s.spreadRadius == spreadRadius && s.opacity == opacity
  {
    ShadowStyle(color, offset, blurRadius, opacity, spreadRadius)
  }

  /** A shadow built with the defaults has no spread and full opacity. */
  lemma ShadowDefaults(offset: Size, blurRadius: real, color: Color)
    ensures NewShadow(offset, blurRadius, color).spreadRadius == 0.0
    ensures NewShadow(offset, blurRadius, color).opacity == 1.0
  {
  }

  /** `DrStyle()`. */
  function EmptyStyle(): (s: DrStyle)
    ensures s.round == None && s.border == None && s.shadow == None
    ensures s.background == None && s.gradient == None
  {
    DrStyle(None, None, None, None, None)
  }

  /** `DrStyle(cornerRadius:)`: only a uniform round style. */
  function RoundedStyle(cornerRadius: real): (s: DrStyle)
    ensures s.round == Some(UniformRound(cornerRadius))
    ensures s.border == None && s.shadow == None && s.background == None && s.gradient == None
    ensures SameRadius(s.round.value) == SameRadiusAsWritten(s.round.value) == Some(cornerRadius)
  {
    DrStyle(Some(UniformRound(cornerRadius)), None, None, None, None)
  }

  /** `DrStyle(border:color:)`: only a border of one width. */
  function BorderedStyle(width: real, color: Color): (s: DrStyle)
    ensures s.border == Some(WidthBorder(width, color))
    ensures s.round == None && s.shadow == None && s.background == None && s.gradient == None
  {
    DrStyle(None, Some(WidthBorder(width, color)), None, None, None)
  }

  /** `DrStyle(shadow:)`: only a shadow. */
  function ShadowedStyle(shadow: ShadowStyle): (s: DrStyle)
    ensures s.shadow == Some(shadow)
    ensures s.round == None && s.border == None && s.background == None && s.gradient == None
  {
    DrStyle(None, None, Some(shadow), None, None)
  }

  /** `DrStyle(gradient:)`: only a gradient. */
  function GradientFilledStyle(gradient: GradientStyle): (s: DrStyle)
    ensures s.gradient == Some(gradient)
    ensures s.round == None && s.border == None && s.shadow == None && s.background == None
  {
    DrStyle(None, None, None, None, Some(gradient))
  }
}
