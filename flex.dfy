// The flex facade (`core/flex/DrFlexLayout.swift`): a `DrFlex` writes the properties of
// its view's Yoga node through fluent setters, reads and writes the view's `dr_style`,
// and keeps the node's `display` and the view's `isHidden` in step.
module FlexFacade {
  import opened Wrappers
  import opened UIKitModel
  import opened CoreStyle
  import Y = Yoga
  import FlexEnums
  import ViewStyle

  /** The edges a margin or padding can be set on; `All` is the shorthand for every edge. */
  datatype Edge = Left | Top | Right | Bottom | Start | End | Horizontal | Vertical | All

  /** The edges a node's absolute position can be set on. */
  type Side = e: Edge | e != Horizontal && e != Vertical && e != All witness Left

  /** The edges a node's border width can be set on. */
  type BorderEdge = e: Edge | e != Horizontal && e != Vertical witness Left

  /** One value per edge. */
  datatype EdgeValues<T> = EdgeValues(
    left: T, top: T, right: T, bottom: T, start: T, end: T, horizontal: T, vertical: T, all: T)
  {
    function Get(e: Edge): T
    {
      match e
      case Left => left
      case Top => top
      case Right => right
      case Bottom => bottom
      case Start => start
      case End => end
      case Horizontal => horizontal
      case Vertical => vertical
      case All => all
    }

    /** These values with the one for `e` replaced by `v`; every other edge keeps its value. */
    function With(e: Edge, v: T): (r: EdgeValues<T>)
      ensures r.Get(e) == v
      ensures forall o: Edge :: o != e ==> r.Get(o) == Get(o)
    {
      match e
      case Left => this.(left := v)
      case Top => this.(top := v)
      case Right => this.(right := v)
      case Bottom => this.(bottom := v)
      case Start => this.(start := v)
      case End => this.(end := v)
      case Horizontal => this.(horizontal := v)
      case Vertical => this.(vertical := v)
      case All => this.(all := v)
    }
  }

  /** The properties of a Yoga node that the facade sets. */
  datatype YogaNode = YogaNode(
    isEnabled: bool,
    isIncludedInLayout: bool,
    flexDirection: Y.YGFlexDirection,
    flexWrap: Y.YGWrap,
    direction: Y.YGDirection,
    justifyContent: Y.YGJustify,
    alignItems: Y.YGAlign,
    alignSelf: Y.YGAlign,
    alignContent: Y.YGAlign,
    flexGrow: real,
    flexShrink: real,
    flexBasis: Y.YGValue,
    flex: real,
    width: Y.YGValue,
    height: Y.YGValue,
    minWidth: Y.YGValue,
    maxWidth: Y.YGValue,
    minHeight: Y.YGValue,
    maxHeight: Y.YGValue,
    aspectRatio: Option<real>,
    position: Y.YGPositionType,
    offset: EdgeValues<Y.YGValue>,
    margin: EdgeValues<Y.YGValue>,
    padding: EdgeValues<Y.YGValue>,
    borderWidth: EdgeValues<real>,
    display: Y.YGDisplay)

  /** `valueOrAuto`: a given length in points, or `auto` when there is none. */
  function ValueOrAuto(value: Option<real>): (y: Y.YGValue)
    ensures y != Y.Undefined && y != Y.YGValue.Auto <==> value.Some?
    ensures value.Some? ==> y == Y.Point(value.value)
  {
    if value.Some? then Y.Point(value.value) else Y.YGValue.Auto
  }

  /** `valueOrUndefined`: a given length in points, or undefined when there is none. */
  function ValueOrUndefined(value: Option<real>): (y: Y.YGValue)
    ensures y != Y.Undefined && y != Y.YGValue.Auto <==> value.Some?
    ensures value.Some? ==> y == Y.Point(value.value)
  {
    if value.Some? then Y.Point(value.value) else Y.Undefined
  }

  /** The length a missing value stands for differs between sizes (`auto`) and size
      bounds (undefined); a given one is the same point length for both. */
  lemma MissingSizeIsAutoMissingBoundIsUndefined(value: Option<real>)
    ensures value.None? ==> ValueOrAuto(value) == Y.YGValue.Auto && ValueOrUndefined(value) == Y.Undefined
    ensures value.Some? ==> ValueOrAuto(value) == ValueOrUndefined(value)
  {
  }

  /** The key the style mutators register their rebuild callback under. */
  const STYLE_KEY: string := "_dr_flex_style"

  /** `DrFlex`. The view is weak in the source: `null` stands for a view already gone. */
  class DrFlex {
    const view: ViewStyle.StyledView?
    var yoga: YogaNode
    /** The keys under which layout-finished callbacks have been registered on the view. */
    var finishedKeys: set<string>

    /** `init(view:)`: takes the view's node and enables flexbox on it. */
    constructor (view: ViewStyle.StyledView?, node: YogaNode)
      ensures this.view == view && yoga == node.(isEnabled := true) && finishedKeys == {}
    {
      this.view := view;
      yoga := node.(isEnabled := true);
      finishedKeys := {};
    }

    /** `isIncludedInLayout`, read. */
    function IsIncludedInLayout(): (included: bool)
      reads this
      ensures included == yoga.isIncludedInLayout
    {
      yoga.isIncludedInLayout
    }

    /** `isIncludedInLayout(_:)`. */
    method SetIncludedInLayout(included: bool)
      modifies this
      ensures yoga == old(yoga).(isIncludedInLayout := included) && finishedKeys == old(finishedKeys)
      ensures IsIncludedInLayout() == included
    {
      yoga := yoga.(isIncludedInLayout := included);
    }

    method Direction(value: FlexEnums.Direction)
      modifies this
      ensures yoga == old(yoga).(flexDirection := value.YogaValue()) && finishedKeys == old(finishedKeys)
    {
      yoga := yoga.(flexDirection := value.YogaValue());
    }

    method Wrap(value: FlexEnums.Wrap)
      modifies this
      ensures yoga == old(yoga).(flexWrap := value.YogaValue()) && finishedKeys == old(finishedKeys)
    {
      yoga := yoga.(flexWrap := value.YogaValue());
    }

    method LayoutDirection(value: FlexEnums.LayoutDirection)
      modifies this
      ensures yoga == old(yoga).(direction := value.YogaValue()) && finishedKeys == old(finishedKeys)
    {
      yoga := yoga.(direction := value.YogaValue());
    }

    method JustifyContent(value: FlexEnums.JustifyContent)
      modifies this
      ensures yoga == old(yoga).(justifyContent := value.YogaValue()) && finishedKeys == old(finishedKeys)
    {
      yoga := yoga.(justifyContent := value.YogaValue());
    }

    method AlignItems(value: FlexEnums.AlignItems)
      modifies this
      ensures yoga == old(yoga).(alignItems := value.YogaValue()) && finishedKeys == old(finishedKeys)
    {
      yoga := yoga.(alignItems := value.YogaValue());
    }

    method AlignSelf(value: FlexEnums.AlignSelf)
      modifies this
      ensures yoga == old(yoga).(alignSelf := value.YogaValue()) && finishedKeys == old(finishedKeys)
    {
      yoga := yoga.(alignSelf := value.YogaValue());
    }

    method AlignContent(value: FlexEnums.AlignContent)
      modifies this
      ensures yoga == old(yoga).(alignContent := value.YogaValue()) && finishedKeys == old(finishedKeys)
    {
      yoga := yoga.(alignContent := value.YogaValue());
    }

    method Grow(value: real)
      modifies this
      ensures yoga == old(yoga).(flexGrow := value) && finishedKeys == old(finishedKeys)
    {
      yoga := yoga.(flexGrow := value);
    }

    method Shrink(value: real)
      modifies this
      ensures yoga == old(yoga).(flexShrink := value) && finishedKeys == old(finishedKeys)
    {
      yoga := yoga.(flexShrink := value);
    }

    /** `basis(_:)`: `nil` means `auto`. */
    method Basis(value: Option<real>)
      modifies this
      ensures yoga == old(yoga).(flexBasis := ValueOrAuto(value)) && finishedKeys == old(finishedKeys)
      ensures value.None? ==> yoga.flexBasis == Y.YGValue.Auto
    {
      yoga := yoga.(flexBasis := ValueOrAuto(value));
    }

    method BasisPercent(percent: real)
      modifies this
      ensures yoga == old(yoga).(flexBasis := Y.Percent(percent)) && finishedKeys == old(finishedKeys)
    {
      yoga := yoga.(flexBasis := Y.Percent(percent));
    }

    method Flex(value: real)
      modifies this
      ensures yoga == old(yoga).(flex := value) && finishedKeys == old(finishedKeys)
    {
      yoga := yoga.(flex := value);
    }

    /** `width(_:)`: `nil` means `auto`. */
    method Width(value: Option<real>)
      modifies this
      ensures yoga == old(yoga).(width := ValueOrAuto(value)) && finishedKeys == old(finishedKeys)
      ensures value.None? ==> yoga.width == Y.YGValue.Auto
    {
      yoga := yoga.(width := ValueOrAuto(value));
    }

    method WidthPercent(percent: real)
      modifies this
      ensures yoga == old(yoga).(width := Y.Percent(percent)) && finishedKeys == old(finishedKeys)
    {
      yoga := yoga.(width := Y.Percent(percent));
    }

    /** `height(_:)`: `nil` means `auto`. */
    method Height(value: Option<real>)
      modifies this
      ensures yoga == old(yoga).(height := ValueOrAuto(value)) && finishedKeys == old(finishedKeys)
      ensures value.None? ==> yoga.height == Y.YGValue.Auto
    {
      yoga := yoga.(height := ValueOrAuto(value));
    }

    method HeightPercent(percent: real)
      modifies this
      ensures yoga == old(yoga).(height := Y.Percent(percent)) && finishedKeys == old(finishedKeys)
    {
      yoga := yoga.(height := Y.Percent(percent));
    }

    /** `size(width:height:)`. */
    method SizeWidthHeight(width: Option<real>, height: Option<real>)
      modifies this
      ensures yoga == old(yoga).(width := ValueOrAuto(width), height := ValueOrAuto(height))
      ensures finishedKeys == old(finishedKeys)
    {
      yoga := yoga.(width := ValueOrAuto(width));
      yoga := yoga.(height := ValueOrAuto(height));
    }

    /** `size(_ size: CGSize?)`: both sides from the size, both `auto` without one. */
    method Size(size: Option<Size>)
      modifies this
      ensures size.Some? ==>
        yoga == old(yoga).(width := Y.Point(size.value.width), height := Y.Point(size.value.height))
      ensures size.None? ==> yoga == old(yoga).(width := Y.YGValue.Auto, height := Y.YGValue.Auto)
      ensures finishedKeys == old(finishedKeys)
    {
      SizeWidthHeight(if size.Some? then Some(size.value.width) else None,
                      if size.Some? then Some(size.value.height) else None);
    }

    /** `size(_ sideLength:)`: a square. */
    method SizeSide(sideLength: real)
      modifies this
      ensures yoga == old(yoga).(width := Y.Point(sideLength), height := Y.Point(sideLength))
      ensures yoga.width == yoga.height
      ensures finishedKeys == old(finishedKeys)
    {
      yoga := yoga.(width := Y.Point(sideLength));
      yoga := yoga.(height := Y.Point(sideLength));
    }

    method SizePercent(widthPercent: real, heightPercent: real)
      modifies this
      ensures yoga == old(yoga).(width := Y.Percent(widthPercent), height := Y.Percent(heightPercent))
      ensures finishedKeys == old(finishedKeys)
    {
      yoga := yoga.(width := Y.Percent(widthPercent));
      yoga := yoga.(height := Y.Percent(heightPercent));
    }

    /** `minWidth(_:)`: `nil` means undefined. */
    method MinWidth(value: Option<real>)
      modifies this
      ensures yoga == old(yoga).(minWidth := ValueOrUndefined(value)) && finishedKeys == old(finishedKeys)
      ensures value.None? ==> yoga.minWidth == Y.Undefined
    {
      yoga := yoga.(minWidth := ValueOrUndefined(value));
    }

    method MinWidthPercent(percent: real)
      modifies this
      ensures yoga == old(yoga).(minWidth := Y.Percent(percent)) && finishedKeys == old(finishedKeys)
    {
      yoga := yoga.(minWidth := Y.Percent(percent));
    }

    /** `maxWidth(_:)`: `nil` means undefined. */
    method MaxWidth(value: Option<real>)
      modifies this
      ensures yoga == old(yoga).(maxWidth := ValueOrUndefined(value)) && finishedKeys == old(finishedKeys)
      ensures value.None? ==> yoga.maxWidth == Y.Undefined
    {
      yoga := yoga.(maxWidth := ValueOrUndefined(value));
    }

    method MaxWidthPercent(percent: real)
      modifies this
      ensures yoga == old(yoga).(maxWidth := Y.Percent(percent)) && finishedKeys == old(finishedKeys)
    {
      yoga := yoga.(maxWidth := Y.Percent(percent));
    }

    /** `minHeight(_:)`: `nil` means undefined. */
    method MinHeight(value: Option<real>)
      modifies this
      ensures yoga == old(yoga).(minHeight := ValueOrUndefined(value)) && finishedKeys == old(finishedKeys)
      ensures value.None? ==> yoga.minHeight == Y.Undefined
    {
      yoga := yoga.(minHeight := ValueOrUndefined(value));
    }

    method MinHeightPercent(percent: real)
      modifies this
      ensures yoga == old(yoga).(minHeight := Y.Percent(percent)) && finishedKeys == old(finishedKeys)
    {
      yoga := yoga.(minHeight := Y.Percent(percent));
    }

    /** `maxHeight(_:)`: `nil` means undefined. */
    method MaxHeight(value: Option<real>)
      modifies this
      ensures yoga == old(yoga).(maxHeight := ValueOrUndefined(value)) && finishedKeys == old(finishedKeys)
      ensures value.None? ==> yoga.maxHeight == Y.Undefined
    {
      yoga := yoga.(maxHeight := ValueOrUndefined(value));
    }

    method MaxHeightPercent(percent: real)
      modifies this
      ensures yoga == old(yoga).(maxHeight := Y.Percent(percent)) && finishedKeys == old(finishedKeys)
    {
      yoga := yoga.(maxHeight := Y.Percent(percent));
    }

    /** `aspectRatio(_:)`: `nil` leaves the ratio undefined. */
    method AspectRatio(value: Option<real>)
      modifies this
      ensures yoga == old(yoga).(aspectRatio := value) && finishedKeys == old(finishedKeys)
    {
      yoga := yoga.(aspectRatio := value);
    }

    method Position(value: FlexEnums.Position)
      modifies this
      ensures yoga == old(yoga).(position := value.YogaValue()) && finishedKeys == old(finishedKeys)
    {
      yoga := yoga.(position := value.YogaValue());
    }

    /** `left(_:)`, `top(_:)`, `right(_:)`, `bottom(_:)`, `start(_:)` and `end(_:)` in points:
        only that side's offset changes. */
    method Offset(side: Side, value: real)
      modifies this
      ensures yoga == old(yoga).(offset := old(yoga).offset.With(side, Y.Point(value)))
      ensures finishedKeys == old(finishedKeys)
    {
      yoga := yoga.(offset := yoga.offset.With(side, Y.Point(value)));
    }

    /** The same setters given a percentage. */
    method OffsetPercent(side: Side, percent: real)
      modifies this
      ensures yoga == old(yoga).(offset := old(yoga).offset.With(side, Y.Percent(percent)))
      ensures finishedKeys == old(finishedKeys)
    {
      yoga := yoga.(offset := yoga.offset.With(side, Y.Percent(percent)));
    }

    /** `horizontally(_:)`: the left and right offsets become the same value. */
    method Horizontally(value: real)
      modifies this
      ensures yoga == old(yoga).(offset := old(yoga).offset.(left := Y.Point(value), right := Y.Point(value)))
      ensures yoga.offset.left == yoga.offset.right
      ensures finishedKeys == old(finishedKeys)
    {
      yoga := yoga.(offset := yoga.offset.(left := Y.Point(value)));
      yoga := yoga.(offset := yoga.offset.(right := Y.Point(value)));
    }

    method HorizontallyPercent(percent: real)
      modifies this
      ensures yoga == old(yoga).(offset := old(yoga).offset.(left := Y.Percent(percent), right := Y.Percent(percent)))
      ensures finishedKeys == old(finishedKeys)
    {
      yoga := yoga.(offset := yoga.offset.(left := Y.Percent(percent)));
      yoga := yoga.(offset := yoga.offset.(right := Y.Percent(percent)));
    }

    /** `vertically(_:)`: the top and bottom offsets become the same value. */
    method Vertically(value: real)
      modifies this
      ensures yoga == old(yoga).(offset := old(yoga).offset.(top := Y.Point(value), bottom := Y.Point(value)))
      ensures yoga.offset.top == yoga.offset.bottom
      ensures finishedKeys == old(finishedKeys)
    {
      yoga := yoga.(offset := yoga.offset.(top := Y.Point(value)));
      yoga := yoga.(offset := yoga.offset.(bottom := Y.Point(value)));
    }

    method VerticallyPercent(percent: real)
      modifies this
      ensures yoga == old(yoga).(offset := old(yoga).offset.(top := Y.Percent(percent), bottom := Y.Percent(percent)))
      ensures finishedKeys == old(finishedKeys)
    {
      yoga := yoga.(offset := yoga.offset.(top := Y.Percent(percent)));
      yoga := yoga.(offset := yoga.offset.(bottom := Y.Percent(percent)));
    }

    /** `all(_:)`: the four offsets top, left, bottom and right become the same value. */
    method AllOffsets(value: real)
      modifies this
      ensures yoga == old(yoga).(offset := old(yoga).offset.(top := Y.Point(value), left := Y.Point(value),
                                                             bottom := Y.Point(value), right := Y.Point(value)))
      ensures yoga.offset.top == yoga.offset.left == yoga.offset.bottom == yoga.offset.right
      ensures finishedKeys == old(finishedKeys)
    {
      yoga := yoga.(offset := yoga.offset.(top := Y.Point(value)));
      yoga := yoga.(offset := yoga.offset.(left := Y.Point(value)));
      yoga := yoga.(offset := yoga.offset.(bottom := Y.Point(value)));
      yoga := yoga.(offset := yoga.offset.(right := Y.Point(value)));
    }

    method AllOffsetsPercent(percent: real)
      modifies this
      ensures yoga == old(yoga).(offset := old(yoga).offset.(top := Y.Percent(percent), left := Y.Percent(percent),
                                                             bottom := Y.Percent(percent), right := Y.Percent(percent)))
      ensures finishedKeys == old(finishedKeys)
    {
      yoga := yoga.(offset := yoga.offset.(top := Y.Percent(percent)));
      yoga := yoga.(offset := yoga.offset.(left := Y.Percent(percent)));
      yoga := yoga.(offset := yoga.offset.(bottom := Y.Percent(percent)));
      yoga := yoga.(offset := yoga.offset.(right := Y.Percent(percent)));
    }

    /** `marginTop(_:)` … `marginVertical(_:)` and `margin(_ value:)` (the `All` edge) in
        points: only that edge's margin changes. */
    method Margin(edge: Edge, value: real)
      modifies this
      ensures yoga == old(yoga).(margin := old(yoga).margin.With(edge, Y.Point(value)))
      ensures finishedKeys == old(finishedKeys)
    {
      yoga := yoga.(margin := yoga.margin.With(edge, Y.Point(value)));
    }

    /** The same setters given a percentage. */
    method MarginPercent(edge: Edge, percent: real)
      modifies this
      ensures yoga == old(yoga).(margin := old(yoga).margin.With(edge, Y.Percent(percent)))
      ensures finishedKeys == old(finishedKeys)
    {
      yoga := yoga.(margin := yoga.margin.With(edge, Y.Percent(percent)));
    }

    /** `margin(_ insets:)`: top, left, bottom and right from the insets. */
    method MarginInsets(insets: EdgeInsets)
      modifies this
      ensures yoga == old(yoga).(margin := old(yoga).margin.(top := Y.Point(insets.top), left := Y.Point(insets.left),
                                                             bottom := Y.Point(insets.bottom), right := Y.Point(insets.right)))
      ensures finishedKeys == old(finishedKeys)
    {
      yoga := yoga.(margin := yoga.margin.With(Top, Y.Point(insets.top)));
      yoga := yoga.(margin := yoga.margin.With(Left, Y.Point(insets.left)));
      yoga := yoga.(margin := yoga.margin.With(Bottom, Y.Point(insets.bottom)));
      yoga := yoga.(margin := yoga.margin.With(Right, Y.Point(insets.right)));
    }

    /** `margin(_ directionalInsets:)`: top, start, bottom and end from the insets. */
    method MarginDirectional(top: real, leading: real, bottom: real, trailing: real)
      modifies this
      ensures yoga == old(yoga).(margin := old(yoga).margin.(top := Y.Point(top), start := Y.Point(leading),
                                                             bottom := Y.Point(bottom), end := Y.Point(trailing)))
      ensures finishedKeys == old(finishedKeys)
    {
      yoga := yoga.(margin := yoga.margin.With(Top, Y.Point(top)));
      yoga := yoga.(margin := yoga.margin.With(Start, Y.Point(leading)));
      yoga := yoga.(margin := yoga.margin.With(Bottom, Y.Point(bottom)));
      yoga := yoga.(margin := yoga.margin.With(End, Y.Point(trailing)));
    }

    /** `margin(_ vertical:_ horizontal:)`. */
    method MarginVerticalHorizontal(vertical: real, horizontal: real)
      modifies this
      ensures yoga == old(yoga).(margin := old(yoga).margin.(vertical := Y.Point(vertical), horizontal := Y.Point(horizontal)))
      ensures finishedKeys == old(finishedKeys)
    {
      yoga := yoga.(margin := yoga.margin.With(Vertical, Y.Point(vertical)));
      yoga := yoga.(margin := yoga.margin.With(Horizontal, Y.Point(horizontal)));
    }

    method MarginVerticalHorizontalPercent(vertical: real, horizontal: real)
      modifies this
      ensures yoga == old(yoga).(margin := old(yoga).margin.(vertical := Y.Percent(vertical), horizontal := Y.Percent(horizontal)))
      ensures finishedKeys == old(finishedKeys)
    {
      yoga := yoga.(margin := yoga.margin.With(Vertical, Y.Percent(vertical)));
      yoga := yoga.(margin := yoga.margin.With(Horizontal, Y.Percent(horizontal)));
    }

    /** `margin(_ top:_ horizontal:_ bottom:)`. */
    method MarginTopHorizontalBottom(top: real, horizontal: real, bottom: real)
      modifies this
      ensures yoga == old(yoga).(margin := old(yoga).margin.(top := Y.Point(top), horizontal := Y.Point(horizontal),
                                                             bottom := Y.Point(bottom)))
      ensures finishedKeys == old(finishedKeys)
    {
      yoga := yoga.(margin := yoga.margin.With(Top, Y.Point(top)));
      yoga := yoga.(margin := yoga.margin.With(Horizontal, Y.Point(horizontal)));
      yoga := yoga.(margin := yoga.margin.With(Bottom, Y.Point(bottom)));
    }

    method MarginTopHorizontalBottomPercent(top: real, horizontal: real, bottom: real)
      modifies this
      ensures yoga == old(yoga).(margin := old(yoga).margin.(top := Y.Percent(top), horizontal := Y.Percent(horizontal),
                                                             bottom := Y.Percent(bottom)))
      ensures finishedKeys == old(finishedKeys)
    {
      yoga := yoga.(margin := yoga.margin.With(Top, Y.Percent(top)));
      yoga := yoga.(margin := yoga.margin.With(Horizontal, Y.Percent(horizontal)));
      yoga := yoga.(margin := yoga.margin.With(Bottom, Y.Percent(bottom)));
    }

    /** `margin(_ top:_ left:_ bottom:_ right:)`. */
    method MarginEdges(top: real, left: real, bottom: real, right: real)
      modifies this
      ensures yoga == old(yoga).(margin := old(yoga).margin.(top := Y.Point(top), left := Y.Point(left),
                                                             bottom := Y.Point(bottom), right := Y.Point(right)))
      ensures finishedKeys == old(finishedKeys)
    {
      MarginInsets(EdgeInsets(top, left, bottom, right));
    }

    method MarginEdgesPercent(top: real, left: real, bottom: real, right: real)
      modifies this
      ensures yoga == old(yoga).(margin := old(yoga).margin.(top := Y.Percent(top), left := Y.Percent(left),
                                                             bottom := Y.Percent(bottom), right := Y.Percent(right)))
      ensures finishedKeys == old(finishedKeys)
    {
      yoga := yoga.(margin := yoga.margin.With(Top, Y.Percent(top)));
      yoga := yoga.(margin := yoga.margin.With(Left, Y.Percent(left)));
      yoga := yoga.(margin := yoga.margin.With(Bottom, Y.Percent(bottom)));
      yoga := yoga.(margin := yoga.margin.With(Right, Y.Percent(right)));
    }

    /** `paddingTop(_:)` … `paddingVertical(_:)` and `padding(_ value:)` (the `All` edge):
        only that edge's padding changes. */
    method Padding(edge: Edge, value: real)
      modifies this
      ensures yoga == old(yoga).(padding := old(yoga).padding.With(edge, Y.Point(value)))
      ensures finishedKeys == old(finishedKeys)
    {
      yoga := yoga.(padding := yoga.padding.With(edge, Y.Point(value)));
    }

    /** `padding(_ insets:)`: top, left, bottom and right from the insets. */
    method PaddingInsets(insets: EdgeInsets)
      modifies this
      ensures yoga == old(yoga).(padding := old(yoga).padding.(top := Y.Point(insets.top), left := Y.Point(insets.left),
                                                               bottom := Y.Point(insets.bottom), right := Y.Point(insets.right)))
      ensures finishedKeys == old(finishedKeys)
    {
      yoga := yoga.(padding := yoga.padding.With(Top, Y.Point(insets.top)));
      yoga := yoga.(padding := yoga.padding.With(Left, Y.Point(insets.left)));
      yoga := yoga.(padding := yoga.padding.With(Bottom, Y.Point(insets.bottom)));
      yoga := yoga.(padding := yoga.padding.With(Right, Y.Point(insets.right)));
    }

    /** `padding(_ directionalInsets:)`: top, start, bottom and end from the insets. */
    method PaddingDirectional(top: real, leading: real, bottom: real, trailing: real)
      modifies this
      ensures yoga == old(yoga).(padding := old(yoga).padding.(top := Y.Point(top), start := Y.Point(leading),
                                                               bottom := Y.Point(bottom), end := Y.Point(trailing)))
      ensures finishedKeys == old(finishedKeys)
    {
      yoga := yoga.(padding := yoga.padding.With(Top, Y.Point(top)));
      yoga := yoga.(padding := yoga.padding.With(Start, Y.Point(leading)));
      yoga := yoga.(padding := yoga.padding.With(Bottom, Y.Point(bottom)));
      yoga := yoga.(padding := yoga.padding.With(End, Y.Point(trailing)));
    }

    /** `padding(_ vertical:_ horizontal:)`. */
    method PaddingVerticalHorizontal(vertical: real, horizontal: real)
      modifies this
      ensures yoga == old(yoga).(padding := old(yoga).padding.(vertical := Y.Point(vertical), horizontal := Y.Point(horizontal)))
      ensures finishedKeys == old(finishedKeys)
    {
      yoga := yoga.(padding := yoga.padding.With(Vertical, Y.Point(vertical)));
      yoga := yoga.(padding := yoga.padding.With(Horizontal, Y.Point(horizontal)));
    }

    /** `padding(_ top:_ horizontal:_ bottom:)`. */
    method PaddingTopHorizontalBottom(top: real, horizontal: real, bottom: real)
      modifies this
      ensures yoga == old(yoga).(padding := old(yoga).padding.(top := Y.Point(top), horizontal := Y.Point(horizontal),
                                                               bottom := Y.Point(bottom)))
      ensures finishedKeys == old(finishedKeys)
    {
      yoga := yoga.(padding := yoga.padding.With(Top, Y.Point(top)));
      yoga := yoga.(padding := yoga.padding.With(Horizontal, Y.Point(horizontal)));
      yoga := yoga.(padding := yoga.padding.With(Bottom, Y.Point(bottom)));
    }

    /** `padding(_ top:_ left:_ bottom:_ right:)`. */
    method PaddingEdges(top: real, left: real, bottom: real, right: real)
      modifies this
      ensures yoga == old(yoga).(padding := old(yoga).padding.(top := Y.Point(top), left := Y.Point(left),
                                                               bottom := Y.Point(bottom), right := Y.Point(right)))
      ensures finishedKeys == old(finishedKeys)
    {
      PaddingInsets(EdgeInsets(top, left, bottom, right));
    }

    /** `borderLeftWidth(_:)` … `borderEndWidth(_:)` and `borderWidth(_:)` (the `All` edge). */
    method BorderWidth(edge: BorderEdge, value: real)
      modifies this
      ensures yoga == old(yoga).(borderWidth := old(yoga).borderWidth.With(edge, value))
      ensures finishedKeys == old(finishedKeys)
    {
      yoga := yoga.(borderWidth := yoga.borderWidth.With(edge, value));
    }

    /** `backgroundColor(_:)`; the view must still exist. */
    method BackgroundColor(color: Color)
      requires view != null
      modifies view
      ensures view.State() == old(view.State()).(appearance := old(view.Current()).(backgroundColor := Some(color)))
    {
      view.SetBackgroundColor(Some(color));
    }

    /** `style(_:)`: replaces the view's whole style, sets the node's border width only when
        the style has a border, and registers the rebuild under the style key. */
    method Style(style: DrStyle)
      requires view != null
      modifies this, view
      ensures view.State() == old(view.State()).(style := Some(style))
      ensures style.border.Some? ==>
        yoga == old(yoga).(borderWidth := old(yoga).borderWidth.With(All, style.border.value.width))
      ensures style.border.None? ==> yoga == old(yoga)
      ensures finishedKeys == old(finishedKeys) + {STYLE_KEY}
    {
      view.SetStyle(Some(style));
      if style.border.Some? {
        BorderWidth(All, style.border.value.width);
      }
      finishedKeys := finishedKeys + {STYLE_KEY};
    }

    /** `cornerRadius(topLeft:topRight:bottomLeft:bottomRight:)`: only the round style of the
        view's style (an empty one when there is none) changes. */
    method CornerRadii(topLeft: real, topRight: real, bottomLeft: real, bottomRight: real)
      requires view != null
      modifies this, view
      ensures view.State() == old(view.State()).(style :=
        Some(old(view.style).GetOr(EmptyStyle()).(round := Some(CornerRound(topLeft, topRight, bottomLeft, bottomRight)))))
      ensures yoga == old(yoga) && finishedKeys == old(finishedKeys) + {STYLE_KEY}
    {
      var style := view.style;
      if style == None {
        style := Some(EmptyStyle());
      }
      style := Some(style.value.(round := Some(CornerRound(topLeft, topRight, bottomLeft, bottomRight))));
      view.SetStyle(style);
      finishedKeys := finishedKeys + {STYLE_KEY};
    }

    /** `cornerRadius(radius:)`: only the round style changes, to a uniform one. */
    method CornerRadius(radius: real)
      requires view != null
      modifies this, view
      ensures view.State() == old(view.State()).(style :=
        Some(old(view.style).GetOr(EmptyStyle()).(round := Some(UniformRound(radius)))))
      ensures yoga == old(yoga) && finishedKeys == old(finishedKeys) + {STYLE_KEY}
    {
      var style := view.style;
      if style == None {
        style := Some(EmptyStyle());
      }
      style := Some(style.value.(round := Some(UniformRound(radius))));
      view.SetStyle(style);
      finishedKeys := finishedKeys + {STYLE_KEY};
    }

    /** `border(width:color:)`: always sets both the node's border width and the border
        style; nothing else of the style changes. */
    method Border(width: real, color: Color)
      requires view != null
      modifies this, view
      ensures view.State() == old(view.State()).(style :=
        Some(old(view.style).GetOr(EmptyStyle()).(border := Some(BorderStyle(width, color)))))
      ensures yoga == old(yoga).(borderWidth := old(yoga).borderWidth.With(All, width))
      ensures finishedKeys == old(finishedKeys) + {STYLE_KEY}
    {
      var style := view.style;
      if style == None {
        style := Some(EmptyStyle());
      }
      BorderWidth(All, width);
      style := Some(style.value.(border := Some(BorderStyle(width, color))));
      view.SetStyle(style);
      finishedKeys := finishedKeys + {STYLE_KEY};
    }

    /** `shadow(offset:blurRadius:spreadRadius:color:opacity:)`: only the shadow changes. */
    method Shadow(offset: Size, blurRadius: real, color: Color,
                  spreadRadius: Option<real> := None, opacity: real := 1.0)
      requires view != null
      modifies this, view
      ensures view.State() == old(view.State()).(style :=
        Some(old(view.style).GetOr(EmptyStyle()).(shadow := Some(NewShadow(offset, blurRadius, color, spreadRadius, opacity)))))
      ensures yoga == old(yoga) && finishedKeys == old(finishedKeys) + {STYLE_KEY}
    {
      var style := view.style;
      if style == None {
        style := Some(EmptyStyle());
      }
      style := Some(style.value.(shadow := Some(NewShadow(offset, blurRadius, color, spreadRadius, opacity))));
      view.SetStyle(style);
      finishedKeys := finishedKeys + {STYLE_KEY};
    }

    /** `gradient(style:)`: only the gradient changes. */
    method Gradient(gradient: GradientStyle)
      requires view != null
      modifies this, view
      ensures view.State() == old(view.State()).(style :=
        Some(old(view.style).GetOr(EmptyStyle()).(gradient := Some(gradient))))
      ensures yoga == old(yoga) && finishedKeys == old(finishedKeys) + {STYLE_KEY}
    {
      var style := view.style;
      if style == None {
        style := Some(EmptyStyle());
      }
      style := Some(style.value.(gradient := Some(gradient)));
      view.SetStyle(style);
      finishedKeys := finishedKeys + {STYLE_KEY};
    }

    /** `display(_ value: Display)`: the node's display, and the view hidden exactly for
        `none`; a view already gone is skipped. */
    method Display(value: FlexEnums.Display)
      modifies this, view
      ensures yoga == old(yoga).(display := value.YogaValue()) && finishedKeys == old(finishedKeys)
      ensures view != null ==> view.State() == old(view.State()).(isHidden := value == FlexEnums.Display.None)
      ensures IsHidden() <==> value == FlexEnums.Display.None
    {
      yoga := yoga.(display := value.YogaValue());
      if view != null {
        view.SetHidden(value == FlexEnums.Display.None);
      }
    }

    /** `display(_ value: Bool)`: shown as `flex` for true, hidden as `none` for false. */
    method DisplayShown(value: bool := true)
      modifies this, view
      ensures yoga == old(yoga).(display := if value then Y.YGDisplay.Flex else Y.YGDisplay.None)
      ensures finishedKeys == old(finishedKeys)
      ensures view != null ==> view.State() == old(view.State()).(isHidden := !value)
      ensures IsHidden() == !value
    {
      yoga := yoga.(display := if value then Y.YGDisplay.Flex else Y.YGDisplay.None);
      if view != null {
        view.SetHidden(!value);
      }
    }

    /** `isHidden`, read: the node displays as `none`. */
    function IsHidden(): (hidden: bool)
      reads this
      ensures hidden <==> yoga.display == Y.YGDisplay.None
    {
      yoga.display == Y.YGDisplay.None
    }

    /** `isHidden`, written: reading it back gives the value written, and the view's own
        `isHidden` agrees. */
    method SetHidden(hidden: bool)
      modifies this, view
      ensures yoga == old(yoga).(display := if hidden then Y.YGDisplay.None else Y.YGDisplay.Flex)
      ensures finishedKeys == old(finishedKeys)
      ensures view != null ==> view.State() == old(view.State()).(isHidden := hidden)
      ensures IsHidden() == hidden
    {
      yoga := yoga.(display := if hidden then Y.YGDisplay.None else Y.YGDisplay.Flex);
      if view != null {
        view.SetHidden(hidden);
      }
    }
  }
}
