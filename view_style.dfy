// `UIView+Style.swift`: the style a view is asked to show, the style and frame it last
// built, and the layers that building leaves behind.
module ViewStyle {
  import opened Wrappers
  import opened UIKitModel
  import opened CoreStyle

  /** What `dr_buildStyle()` does: nothing, the system-layer path, or the custom-layer path. */
  datatype Rebuild = Skip | SystemPath | CustomPath

  /** The decision `dr_buildStyle()` takes from the built style and frame, the requested
      style and the current bounds. */
  function Gate(oldStyle: Option<DrStyle>, style: Option<DrStyle>, oldFrame: Option<Rect>,
                bounds: Rect): (d: Rebuild)
    ensures d == Skip <==>
      (oldStyle == None && style == None)
      || (oldStyle.Some? && oldStyle == style && oldFrame == Some(bounds))
    ensures d == CustomPath <==>
      d != Skip && style.Some? && style.value.round.Some? && !IsSameRadius(style.value.round.value)
  {
    if oldStyle == None && style == None then Skip
    else if oldStyle.Some? && style.Some? && oldStyle.value == style.value
            && oldFrame.Some? && oldFrame.value == bounds then Skip
    else if style.Some? && style.value.round.Some? && !IsSameRadius(style.value.round.value)
    then CustomPath
    else SystemPath
  }

  /** Once the requested style and the bounds have been recorded, the gate skips: building
      twice in a row does the work once. */
  lemma GateSkipsOnceRecorded(style: Option<DrStyle>, bounds: Rect)
    ensures Gate(style, style, Some(bounds), bounds) == Skip
  {
  }

  /** A requested style is rebuilt whenever the frame it was built for is not the bounds. */
  lemma GateRebuildsOnResize(oldStyle: Option<DrStyle>, style: DrStyle, oldFrame: Option<Rect>,
                             bounds: Rect)
    requires oldFrame != Some(bounds)
    ensures Gate(oldStyle, Some(style), oldFrame, bounds) != Skip
  {
  }

  /** For a view whose frame has not changed, the synthesised `==` decides the gate: the
      build is skipped exactly when the requested style agrees with the built one in all
      four components, so changing any one of them rebuilds. */
  lemma GateSkipsExactlyForSameComponents(built: DrStyle, requested: DrStyle, bounds: Rect)
    ensures Gate(Some(built), Some(requested), Some(bounds), bounds) == Skip <==>
      built.round == requested.round && built.border == requested.border
      && built.shadow == requested.shadow && built.gradient == requested.gradient
  {
  }

  /** The radii of the four corners, each 0 when the round style leaves it out. */
  datatype Corners = Corners(topLeft: real, topRight: real, bottomLeft: real, bottomRight: real)

  function CornersOf(round: RoundStyle): (c: Corners)
    ensures c.topLeft == round.topLeft.GetOr(0.0) && c.topRight == round.topRight.GetOr(0.0)
    ensures c.bottomLeft == round.bottomLeft.GetOr(0.0) && c.bottomRight == round.bottomRight.GetOr(0.0)
  {
    Corners(round.topLeft.GetOr(0.0), round.topRight.GetOr(0.0),
            round.bottomLeft.GetOr(0.0), round.bottomRight.GetOr(0.0))
  }

  /** The view's own `CALayer`, in the properties the style code sets. */
  datatype HostLayer = HostLayer(
    cornerRadius: real,
    masksToBounds: bool,
    borderWidth: real,
    borderColor: Option<Color>,
    shadowColor: Option<Color>,
    shadowRadius: real,
    shadowOffset: Size,
    shadowOpacity: real,
    shadowPath: Option<Rect>)

  /** `dr_gradientLayer`. */
  datatype GradientLayer = GradientLayer(
    frame: Rect,
    colors: Option<seq<Color>>,
    locations: Option<seq<real>>,
    startPoint: Point,
    endPoint: Point,
    kind: GradientType,
    cornerRadius: real)

  /** A fresh `CAGradientLayer`: an axial gradient from the top centre to the bottom centre. */
  const NEW_GRADIENT_LAYER: GradientLayer :=
    GradientLayer(Rect(Point(0.0, 0.0), Size(0.0, 0.0)), None, None,
                  Point(0.5, 0.0), Point(0.5, 1.0), Axial, 0.0)

  /** `dr_roundLayer`: a shape with the given corner radii, used as a mask. */
  datatype RoundLayer = RoundLayer(frame: Rect, corners: Corners)

  /** `dr_borderLayer`: a stroked shape inside the bounds. */
  datatype BorderLayer = BorderLayer(frame: Rect, lineWidth: real, strokeColor: Color, corners: Corners)

  /** `dr_backgroundLayer`: carries the view's background colour under the round mask. */
  datatype BackgroundLayer = BackgroundLayer(frame: Rect, color: Option<Color>)

  /** Everything a rebuild may change on a view. */
  datatype Appearance = Appearance(
    backgroundColor: Option<Color>,
    layer: HostLayer,
    gradientLayer: Option<GradientLayer>,
    roundLayer: Option<RoundLayer>,
    borderLayer: Option<BorderLayer>,
    backgroundLayer: Option<BackgroundLayer>)

  /** `CGRect.insetBy(dx:dy:)`. */
  function InsetBy(r: Rect, dx: real, dy: real): Rect
  {
    Rect(Point(r.origin.x + dx, r.origin.y + dy),
         Size(r.size.width - 2.0 * dx, r.size.height - 2.0 * dy))
  }

  /** The gradient layer after both paths paint `g` into it: made if missing, framed to the
      bounds, given the colours and locations, and the points and kind only when given. */
  function Painted(current: Option<GradientLayer>, g: GradientStyle, bounds: Rect): (l: GradientLayer)
    ensures l.frame == bounds && l.colors == g.colors && l.locations == g.locations
    ensures l.startPoint == g.startPoint.GetOr(current.GetOr(NEW_GRADIENT_LAYER).startPoint)
    ensures l.endPoint == g.endPoint.GetOr(current.GetOr(NEW_GRADIENT_LAYER).endPoint)
    ensures l.kind == g.kind.GetOr(current.GetOr(NEW_GRADIENT_LAYER).kind)
    ensures l.cornerRadius == current.GetOr(NEW_GRADIENT_LAYER).cornerRadius
  {
    var base := current.GetOr(NEW_GRADIENT_LAYER);
    base.(frame := bounds, locations := g.locations, colors := g.colors,
          startPoint := g.startPoint.GetOr(base.startPoint),
          endPoint := g.endPoint.GetOr(base.endPoint),
          kind := g.kind.GetOr(base.kind))
  }

  /** The gradient layer a path leaves: painted when the style has a gradient, gone otherwise. */
  function GradientFor(current: Option<GradientLayer>, style: Option<DrStyle>, bounds: Rect)
    : (l: Option<GradientLayer>)
    ensures l.Some? <==> style.Some? && style.value.gradient.Some?
    ensures l.Some? ==> l.value == Painted(current, style.value.gradient.value, bounds)
  {
    if style.Some? && style.value.gradient.Some?
    then Some(Painted(current, style.value.gradient.value, bounds))
    else None
  }

  /** The shadow properties both paths write: the shadow's own, or none, and a shadow path
      that grows the bounds by the spread radius on every side when one is given. */
  function Shadowed(layer: HostLayer, shadow: Option<ShadowStyle>, bounds: Rect): (h: HostLayer)
    ensures h.cornerRadius == layer.cornerRadius && h.masksToBounds == layer.masksToBounds
    ensures h.borderWidth == layer.borderWidth && h.borderColor == layer.borderColor
    ensures shadow.None? ==>
      h.shadowColor == None && h.shadowRadius == 0.0 && h.shadowOffset == Size(0.0, 0.0)
      && h.shadowOpacity == 0.0 && h.shadowPath == None
    ensures shadow.Some? ==>
      h.shadowColor == Some(shadow.value.color) && h.shadowRadius == shadow.value.blurRadius
      && h.shadowOffset == shadow.value.offset && h.shadowOpacity == shadow.value.opacity
    ensures h.shadowPath.Some? <==> shadow.Some? && shadow.value.spreadRadius.Some?
    ensures h.shadowPath.Some? ==>
      var s := shadow.value.spreadRadius.value;
      h.shadowPath.value.size
      == Size(bounds.size.width + 2.0 * s, bounds.size.height + 2.0 * s)
  {
    match shadow
    case None =>
      layer.(shadowColor := None, shadowRadius := 0.0, shadowOffset := Size(0.0, 0.0),
             shadowOpacity := 0.0, shadowPath := None)
    case Some(sh) =>
      layer.(shadowColor := Some(sh.color), shadowRadius := sh.blurRadius,
             shadowOffset := sh.offset, shadowOpacity := sh.opacity,
             shadowPath := if sh.spreadRadius.Some?
                           then Some(InsetBy(bounds, -sh.spreadRadius.value, -sh.spreadRadius.value))
                           else None)
  }

  /** The corner radius the system path gives the layers: the style's common radius, or 0. */
  function SystemCornerRadius(style: Option<DrStyle>): (r: real)
    ensures style.Some? && style.value.round.Some? && IsSameRadius(style.value.round.value) ==>
      Some(r) == SameRadius(style.value.round.value)
    ensures !(style.Some? && style.value.round.Some? && IsSameRadius(style.value.round.value)) ==>
      r == 0.0
  {
    if style.Some? && style.value.round.Some? then SameRadius(style.value.round.value).GetOr(0.0)
    else 0.0
  }

  /** `resetStyleBySystem()`: the view shows `style` with the layer's own properties. */
  function SystemAppearance(a: Appearance, style: Option<DrStyle>, bounds: Rect): (r: Appearance)
    ensures r.backgroundLayer == None && r.roundLayer == None && r.borderLayer == None
    ensures r.backgroundColor == a.backgroundColor
    ensures r.gradientLayer.Some? <==> style.Some? && style.value.gradient.Some?
    ensures r.gradientLayer.Some? ==> r.gradientLayer.value.cornerRadius == r.layer.cornerRadius
    ensures r.layer.cornerRadius == SystemCornerRadius(style)
    ensures !r.layer.masksToBounds
    ensures style.Some? && style.value.border.Some? ==>
      r.layer.borderWidth == style.value.border.value.width
      && r.layer.borderColor == Some(style.value.border.value.color)
    ensures !(style.Some? && style.value.border.Some?) ==>
      r.layer.borderWidth == 0.0 && r.layer.borderColor == None
    ensures r.layer == Shadowed(r.layer, if style.Some? then style.value.shadow else None, bounds)
  {
    var radius := SystemCornerRadius(style);
    var gradient := GradientFor(a.gradientLayer, style, bounds);
    var border := if style.Some? then style.value.border else None;
    var host := a.layer.(masksToBounds := false, cornerRadius := radius,
                         borderWidth := if border.Some? then border.value.width else 0.0,
                         borderColor := if border.Some? then Some(border.value.color) else None);
    Appearance(a.backgroundColor,
               Shadowed(host, if style.Some? then style.value.shadow else None, bounds),
               if gradient.Some? then Some(gradient.value.(cornerRadius := radius)) else None,
               None, None, None)
  }

  /** `resetStyleByOther(round:)`: the view shows `style`, whose corners differ, with shape
      layers; its background moves into a masked background layer unless a gradient covers
      the view, in which case the background comes back to the view. */
  function CustomAppearance(a: Appearance, style: DrStyle, round: RoundStyle, bounds: Rect): (r: Appearance)
    ensures r.gradientLayer == GradientFor(a.gradientLayer, Some(style), bounds)
    ensures r.gradientLayer.Some? <==> style.gradient.Some?
    ensures r.backgroundLayer.Some? <==> style.gradient.None?
    ensures r.roundLayer == Some(RoundLayer(bounds, CornersOf(round)))
    ensures r.borderLayer.Some? <==> style.border.Some?
    ensures r.borderLayer.Some? ==>
      var w := style.border.value.width;
      r.borderLayer.value == BorderLayer(InsetBy(bounds, w, w), w, style.border.value.color, CornersOf(round))
    ensures r.layer.cornerRadius == 0.0 && !r.layer.masksToBounds
    ensures r.layer.borderWidth == 0.0 && r.layer.borderColor == None
    ensures r.layer == Shadowed(r.layer, style.shadow, bounds)
    ensures style.gradient.None? && a.backgroundColor.Some? ==>
      r.backgroundColor == None && r.backgroundLayer.value.color == a.backgroundColor
    ensures style.gradient.None? && a.backgroundColor.None? ==>
      r.backgroundColor == None
      && r.backgroundLayer.value.color == (if a.backgroundLayer.Some? then a.backgroundLayer.value.color else None)
    ensures style.gradient.Some? ==>
      r.backgroundColor ==
        (if a.backgroundLayer.Some? && a.backgroundLayer.value.color.Some?
         then a.backgroundLayer.value.color else a.backgroundColor)
  {
    var gradient := GradientFor(a.gradientLayer, Some(style), bounds);
    var corners := CornersOf(round);
    var border :=
      if style.border.Some?
      then var w := style.border.value.width;
           Some(BorderLayer(InsetBy(bounds, w, w), w, style.border.value.color, corners))
      else None;
    var host := a.layer.(borderColor := None, borderWidth := 0.0, cornerRadius := 0.0,
                         masksToBounds := false);
    var (backgroundColor, background) :=
      if gradient.None? then
        var previous := if a.backgroundLayer.Some? then a.backgroundLayer.value.color else None;
        if a.backgroundColor.Some?
        then (None, Some(BackgroundLayer(bounds, a.backgroundColor)))
        else (a.backgroundColor, Some(BackgroundLayer(bounds, previous)))
      else if a.backgroundLayer.Some? && a.backgroundLayer.value.color.Some?
      then (a.backgroundLayer.value.color, None)
      else (a.backgroundColor, None);
    Appearance(backgroundColor, Shadowed(host, style.shadow, bounds), gradient,
               Some(RoundLayer(bounds, corners)), border, background)
  }

  /** Painting the same style over its own result changes nothing, on either path. */
  lemma PathsAreIdempotent(a: Appearance, style: DrStyle, round: RoundStyle, bounds: Rect)
    ensures SystemAppearance(SystemAppearance(a, Some(style), bounds), Some(style), bounds)
            == SystemAppearance(a, Some(style), bounds)
    ensures CustomAppearance(CustomAppearance(a, style, round, bounds), style, round, bounds)
            == CustomAppearance(a, style, round, bounds)
  {
  }

  /** On the system path chosen for a round style, the corners get that style's common
      radius. */
  lemma SystemPathUsesCommonRadius(oldStyle: Option<DrStyle>, style: DrStyle, oldFrame: Option<Rect>,
                                   bounds: Rect, a: Appearance)
    requires Gate(oldStyle, Some(style), oldFrame, bounds) == SystemPath
    requires style.round.Some?
    ensures SameRadius(style.round.value).Some?
    ensures SystemAppearance(a, Some(style), bounds).layer.cornerRadius == SameRadius(style.round.value).value
  {
  }

  /** Everything the style code and the flex facade read or write on a view. */
  datatype ViewState = ViewState(
    style: Option<DrStyle>,
    oldStyle: Option<DrStyle>,
    oldFrame: Option<Rect>,
    bounds: Rect,
    isHidden: bool,
    appearance: Appearance)

  /** A view with style state and the layers the style code attaches to it. */
  class StyledView {
    /** `dr_style`: the style asked for. */
    var style: Option<DrStyle>
    /** `dr_oldStyle` and `dr_oldFrame`: the style and frame last built. */
    var oldStyle: Option<DrStyle>
    var oldFrame: Option<Rect>
    /** `bounds`, set by layout. */
    var bounds: Rect
    var isHidden: bool
    var backgroundColor: Option<Color>
    var layer: HostLayer
    var gradientLayer: Option<GradientLayer>
    var roundLayer: Option<RoundLayer>
    var borderLayer: Option<BorderLayer>
    var backgroundLayer: Option<BackgroundLayer>

    /** The part of the view a rebuild may change. */
    function Current(): (a: Appearance)
      reads this
      ensures a.backgroundColor == backgroundColor && a.layer == layer
      ensures a.gradientLayer == gradientLayer && a.roundLayer == roundLayer
      ensures a.borderLayer == borderLayer && a.backgroundLayer == backgroundLayer
    {
      Appearance(backgroundColor, layer, gradientLayer, roundLayer, borderLayer, backgroundLayer)
    }

    /** The whole of the view's modelled state. */
    function State(): (v: ViewState)
      reads this
      ensures v.style == style && v.oldStyle == oldStyle && v.oldFrame == oldFrame
      ensures v.bounds == bounds && v.isHidden == isHidden && v.appearance == Current()
    {
      ViewState(style, oldStyle, oldFrame, bounds, isHidden, Current())
    }

    /** A view with no style asked for or built and none of the style layers. */
    constructor (bounds: Rect, isHidden: bool, backgroundColor: Option<Color>, layer: HostLayer)
      ensures this.bounds == bounds && this.isHidden == isHidden
      ensures this.backgroundColor == backgroundColor && this.layer == layer
      ensures style == None && oldStyle == None && oldFrame == None
      ensures gradientLayer == None && roundLayer == None && borderLayer == None && backgroundLayer == None
    {
      this.bounds := bounds;
      this.isHidden := isHidden;
      this.backgroundColor := backgroundColor;
      this.layer := layer;
      style := None;
      oldStyle := None;
      oldFrame := None;
      gradientLayer := None;
      roundLayer := None;
      borderLayer := None;
      backgroundLayer := None;
    }

    /** The `dr_style` setter: skips the store when the stored style equals the new one, so
        either way the stored style is the new one. */
    method SetStyle(newValue: Option<DrStyle>)
      modifies this
      ensures State() == old(State()).(style := newValue)
    {
      if style.Some? && Some(style.value) == newValue {
        return;
      }
      style := newValue;
    }

    /** The `dr_oldStyle` setter, with the same skip. */
    method SetOldStyle(newValue: Option<DrStyle>)
      modifies this
      ensures State() == old(State()).(oldStyle := newValue)
    {
      if oldStyle.Some? && Some(oldStyle.value) == newValue {
        return;
      }
      oldStyle := newValue;
    }

    /** `isHidden`. */
    method SetHidden(hidden: bool)
      modifies this
      ensures State() == old(State()).(isHidden := hidden)
    {
      isHidden := hidden;
    }

    /** `backgroundColor`. */
    method SetBackgroundColor(color: Option<Color>)
      modifies this
      ensures State() == old(State()).(appearance := old(Current()).(backgroundColor := color))
    {
      backgroundColor := color;
    }

    /** `dr_buildStyle()`: rebuilds the layers when the gate says so, then records the style
        and frame built, after which the gate skips. */
    method BuildStyle()
      modifies this
      ensures style == old(style) && bounds == old(bounds) && isHidden == old(isHidden)
      ensures Gate(oldStyle, style, oldFrame, bounds) == Skip
      ensures Gate(old(oldStyle), old(style), old(oldFrame), old(bounds)) == Skip ==>
        State() == old(State())
      ensures Gate(old(oldStyle), old(style), old(oldFrame), old(bounds)) != Skip ==>
        oldStyle == style && oldFrame == Some(bounds)
      ensures Gate(old(oldStyle), old(style), old(oldFrame), old(bounds)) == SystemPath ==>
        Current() == SystemAppearance(old(Current()), style, bounds)
      ensures Gate(old(oldStyle), old(style), old(oldFrame), old(bounds)) == CustomPath ==>
        Current() == CustomAppearance(old(Current()), style.value, style.value.round.value, bounds)
    {
      var decision := Gate(oldStyle, style, oldFrame, bounds);
      if decision == Skip {
        return;
      }
      SetOldStyle(style);
      oldFrame := Some(bounds);
      if decision == CustomPath {
        ResetByOther(oldStyle.value.round.value);
      } else {
        ResetBySystem();
      }
    }

    /** `dr_buildStyle(style:)`: asks for `s`, then builds. */
    method BuildStyleWith(s: DrStyle)
      modifies this
      ensures style == Some(s) && bounds == old(bounds) && isHidden == old(isHidden)
      ensures Gate(oldStyle, style, oldFrame, bounds) == Skip
      ensures Gate(old(oldStyle), Some(s), old(oldFrame), old(bounds)) == Skip ==>
        oldStyle == old(oldStyle) && oldFrame == old(oldFrame) && Current() == old(Current())
      ensures Gate(old(oldStyle), Some(s), old(oldFrame), old(bounds)) == SystemPath ==>
        Current() == SystemAppearance(old(Current()), Some(s), bounds)
      ensures Gate(old(oldStyle), Some(s), old(oldFrame), old(bounds)) == CustomPath ==>
        Current() == CustomAppearance(old(Current()), s, s.round.value, bounds)
    {
      SetStyle(Some(s));
      BuildStyle();
    }

    /** `resetStyleByOther(round:)`, step by step over the layers. */
    method ResetByOther(round: RoundStyle)
      requires oldStyle.Some?
      modifies this
      ensures style == old(style) && oldStyle == old(oldStyle) && oldFrame == old(oldFrame)
      ensures bounds == old(bounds) && isHidden == old(isHidden)
      ensures Current() == CustomAppearance(old(Current()), oldStyle.value, round, bounds)
    {
      var st := oldStyle.value;
      // gradient
      if st.gradient.Some? {
        gradientLayer := Some(Painted(gradientLayer, st.gradient.value, bounds));
      } else {
        gradientLayer := None;
      }
      // border
      layer := layer.(borderColor := None, borderWidth := 0.0);
      var corners := CornersOf(round);
      if st.border.Some? {
        var w := st.border.value.width;
        borderLayer := Some(BorderLayer(InsetBy(bounds, w, w), w, st.border.value.color, corners));
      } else {
        borderLayer := None;
      }
      // round
      layer := layer.(cornerRadius := 0.0, masksToBounds := false);
      roundLayer := Some(RoundLayer(bounds, corners));
      if gradientLayer == None {
        var bg := if backgroundLayer.Some? then backgroundLayer.value else BackgroundLayer(bounds, None);
        if backgroundColor.Some? {
          bg := bg.(color := backgroundColor);
          backgroundColor := None;
        }
        backgroundLayer := Some(bg.(frame := bounds));
      } else {
        if backgroundLayer.Some? && backgroundLayer.value.color.Some? {
          backgroundColor := backgroundLayer.value.color;
        }
        backgroundLayer := None;
      }
      // shadow
      layer := Shadowed(layer, st.shadow, bounds);
    }

    /** `resetStyleBySystem()`, step by step over the layers. */
    method ResetBySystem()
      modifies this
      ensures style == old(style) && oldStyle == old(oldStyle) && oldFrame == old(oldFrame)
      ensures bounds == old(bounds) && isHidden == old(isHidden)
      ensures Current() == SystemAppearance(old(Current()), oldStyle, bounds)
    {
      backgroundLayer := None;
      roundLayer := None;
      borderLayer := None;
      layer := layer.(masksToBounds := false);
      // gradient
      if oldStyle.Some? && oldStyle.value.gradient.Some? {
        gradientLayer := Some(Painted(gradientLayer, oldStyle.value.gradient.value, bounds));
      } else {
        gradientLayer := None;
      }
      // round
      var radius := if oldStyle.Some? && oldStyle.value.round.Some?
                    then SameRadius(oldStyle.value.round.value).GetOr(0.0) else 0.0;
      layer := layer.(cornerRadius := radius);
      if gradientLayer.Some? {
        gradientLayer := Some(gradientLayer.value.(cornerRadius := radius));
      }
      // border
      var border := if oldStyle.Some? then oldStyle.value.border else None;
      layer := layer.(borderWidth := if border.Some? then border.value.width else 0.0,
                      borderColor := if border.Some? then Some(border.value.color) else None);
      // shadow
      layer := Shadowed(layer, if oldStyle.Some? then oldStyle.value.shadow else None, bounds);
    }
  }
}
