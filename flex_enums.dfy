// The facade's own enums and their `yogaValue` mappings (`DrFlextLayout+Enums.swift`).
// Each mapping is a total switch; its partner is the inverse reading of the Yoga value,
// which recovers the case and so shows that distinct cases map to distinct values.
module FlexEnums {
  import Wrappers
  import Y = Yoga

  datatype Direction = Column | ColumnReverse | Row | RowReverse
  {
    function YogaValue(): (y: Y.YGFlexDirection)
      ensures DirectionOf(y) == this
    {
      match this
      case Column => Y.YGFlexDirection.Column
      case ColumnReverse => Y.YGFlexDirection.ColumnReverse
      case Row => Y.YGFlexDirection.Row
      case RowReverse => Y.YGFlexDirection.RowReverse
    }
  }

  function DirectionOf(y: Y.YGFlexDirection): Direction
  {
    match y
    case Column => Direction.Column
    case ColumnReverse => Direction.ColumnReverse
    case Row => Direction.Row
    case RowReverse => Direction.RowReverse
  }

  datatype JustifyContent = Start | Center | End | SpaceBetween | SpaceAround | SpaceEvenly
  {
    function YogaValue(): (y: Y.YGJustify)
      ensures JustifyOf(y) == this
    {
      match this
      case Start => Y.YGJustify.FlexStart
      case Center => Y.YGJustify.Center
      case End => Y.YGJustify.FlexEnd
      case SpaceBetween => Y.YGJustify.SpaceBetween
      case SpaceAround => Y.YGJustify.SpaceAround
      case SpaceEvenly => Y.YGJustify.SpaceEvenly
    }
  }

  function JustifyOf(y: Y.YGJustify): JustifyContent
  {
    match y
    case FlexStart => JustifyContent.Start
    case Center => JustifyContent.Center
    case FlexEnd => JustifyContent.End
    case SpaceBetween => JustifyContent.SpaceBetween
    case SpaceAround => JustifyContent.SpaceAround
    case SpaceEvenly => JustifyContent.SpaceEvenly
  }

  datatype AlignContent = Stretch | Start | Center | End | SpaceBetween | SpaceAround
  {
    function YogaValue(): (y: Y.YGAlign)
      ensures AlignContentOf(y) == Wrappers.Some(this)
    {
      match this
      case Stretch => Y.YGAlign.Stretch
      case Start => Y.YGAlign.FlexStart
      case Center => Y.YGAlign.Center
      case End => Y.YGAlign.FlexEnd
      case SpaceBetween => Y.YGAlign.SpaceBetween
      case SpaceAround => Y.YGAlign.SpaceAround
    }
  }

  function AlignContentOf(y: Y.YGAlign): Wrappers.Option<AlignContent>
  {
    match y
    case Stretch => Wrappers.Some(AlignContent.Stretch)
    case FlexStart => Wrappers.Some(AlignContent.Start)
    case Center => Wrappers.Some(AlignContent.Center)
    case FlexEnd => Wrappers.Some(AlignContent.End)
    case SpaceBetween => Wrappers.Some(AlignContent.SpaceBetween)
    case SpaceAround => Wrappers.Some(AlignContent.SpaceAround)
    case _ => Wrappers.None
  }

  datatype AlignItems = Stretch | Start | Center | End | Baseline
  {
    function YogaValue(): (y: Y.YGAlign)
      ensures AlignItemsOf(y) == Wrappers.Some(this)
    {
      match this
      case Stretch => Y.YGAlign.Stretch
      case Start => Y.YGAlign.FlexStart
      case Center => Y.YGAlign.Center
      case End => Y.YGAlign.FlexEnd
      case Baseline => Y.YGAlign.Baseline
    }
  }

  function AlignItemsOf(y: Y.YGAlign): Wrappers.Option<AlignItems>
  {
    match y
    case Stretch => Wrappers.Some(AlignItems.Stretch)
    case FlexStart => Wrappers.Some(AlignItems.Start)
    case Center => Wrappers.Some(AlignItems.Center)
    case FlexEnd => Wrappers.Some(AlignItems.End)
    case Baseline => Wrappers.Some(AlignItems.Baseline)
    case _ => Wrappers.None
  }

  datatype AlignSelf = Auto | Stretch | Start | Center | End | Baseline
  {
    function YogaValue(): (y: Y.YGAlign)
      ensures AlignSelfOf(y) == Wrappers.Some(this)
    {
      match this
      case Auto => Y.YGAlign.Auto
      case Stretch => Y.YGAlign.Stretch
      case Start => Y.YGAlign.FlexStart
      case Center => Y.YGAlign.Center
      case End => Y.YGAlign.FlexEnd
      case Baseline => Y.YGAlign.Baseline
    }
  }

  function AlignSelfOf(y: Y.YGAlign): Wrappers.Option<AlignSelf>
  {
    match y
    case Auto => Wrappers.Some(AlignSelf.Auto)
    case Stretch => Wrappers.Some(AlignSelf.Stretch)
    case FlexStart => Wrappers.Some(AlignSelf.Start)
    case Center => Wrappers.Some(AlignSelf.Center)
    case FlexEnd => Wrappers.Some(AlignSelf.End)
    case Baseline => Wrappers.Some(AlignSelf.Baseline)
    case _ => Wrappers.None
  }

  datatype Wrap = NoWrap | Wrap | WrapReverse
  {
    function YogaValue(): (y: Y.YGWrap)
      ensures WrapOf(y) == this
    {
      match this
      case NoWrap => Y.YGWrap.NoWrap
      case Wrap => Y.YGWrap.Wrap
      case WrapReverse => Y.YGWrap.WrapReverse
    }
  }

  function WrapOf(y: Y.YGWrap): Wrap
  {
    match y
    case NoWrap => Wrap.NoWrap
    case Wrap => Wrap.Wrap
    case WrapReverse => Wrap.WrapReverse
  }

  datatype Position = Relative | Absolute
  {
    function YogaValue(): (y: Y.YGPositionType)
      ensures PositionOf(y) == this
    {
      match this
      case Relative => Y.YGPositionType.Relative
      case Absolute => Y.YGPositionType.Absolute
    }
  }

  function PositionOf(y: Y.YGPositionType): Position
  {
    match y
    case Relative => Position.Relative
    case Absolute => Position.Absolute
  }

  datatype LayoutDirection = Inherit | Ltr | Rtl
  {
    /** `ltr` and `rtl` map to their Yoga directions; every other case to `inherit`. */
    function YogaValue(): (y: Y.YGDirection)
      ensures LayoutDirectionOf(y) == this
      ensures this == Ltr <==> y == Y.YGDirection.LTR
      ensures this == Rtl <==> y == Y.YGDirection.RTL
    {
      match this
      case Ltr => Y.YGDirection.LTR
      case Rtl => Y.YGDirection.RTL
      case _ => Y.YGDirection.Inherit
    }
  }

  function LayoutDirectionOf(y: Y.YGDirection): LayoutDirection
  {
    match y
    case Inherit => LayoutDirection.Inherit
    case LTR => LayoutDirection.Ltr
    case RTL => LayoutDirection.Rtl
  }

  datatype Display = Flex | None
  {
    function YogaValue(): (y: Y.YGDisplay)
      ensures DisplayOf(y) == this
      ensures (this == None) == (y == Y.YGDisplay.None)
    {
      match this
      case Flex => Y.YGDisplay.Flex
      case None => Y.YGDisplay.None
    }
  }

  function DisplayOf(y: Y.YGDisplay): Display
  {
    match y
    case Flex => Display.Flex
    case None => Display.None
  }

  /** `LayoutMode`: how `layout(mode:)` lets the container grow. */
  datatype LayoutMode = FitContainer | AdjustHeight | AdjustWidth

  /** The dimension flexibility `layout(mode:)` passes to Yoga: none to fit the container,
      the width when adjusting the width, and the height otherwise. */
  function Flexibility(mode: LayoutMode): (f: Wrappers.Option<Y.YGDimensionFlexibility>)
    ensures f.None? <==> mode == FitContainer
    ensures f == Wrappers.Some(Y.FlexibleWidth) <==> mode == AdjustWidth
    ensures f == Wrappers.Some(Y.FlexibleHeight) <==> mode == AdjustHeight
  {
    if mode == FitContainer then Wrappers.None
    else Wrappers.Some(if mode == AdjustWidth then Y.FlexibleWidth else Y.FlexibleHeight)
  }

  /** Distinct cases map to distinct Yoga values, for every mapping. */
  lemma {:induction false} MappingsAreInjective(
    d1: Direction, d2: Direction, j1: JustifyContent, j2: JustifyContent,
    c1: AlignContent, c2: AlignContent, i1: AlignItems, i2: AlignItems,
    s1: AlignSelf, s2: AlignSelf, w1: Wrap, w2: Wrap, p1: Position, p2: Position,
    l1: LayoutDirection, l2: LayoutDirection, x1: Display, x2: Display)
    ensures d1.YogaValue() == d2.YogaValue() ==> d1 == d2
    ensures j1.YogaValue() == j2.YogaValue() ==> j1 == j2
    ensures c1.YogaValue() == c2.YogaValue() ==> c1 == c2
    ensures i1.YogaValue() == i2.YogaValue() ==> i1 == i2
    ensures s1.YogaValue() == s2.YogaValue() ==> s1 == s2
    ensures w1.YogaValue() == w2.YogaValue() ==> w1 == w2
    ensures p1.YogaValue() == p2.YogaValue() ==> p1 == p2
    ensures l1.YogaValue() == l2.YogaValue() ==> l1 == l2
    ensures x1.YogaValue() == x2.YogaValue() ==> x1 == x2
  {
    assert DirectionOf(d1.YogaValue()) == d1 && DirectionOf(d2.YogaValue()) == d2;
    assert JustifyOf(j1.YogaValue()) == j1 && JustifyOf(j2.YogaValue()) == j2;
    assert AlignContentOf(c1.YogaValue()) == Wrappers.Some(c1);
    assert AlignContentOf(c2.YogaValue()) == Wrappers.Some(c2);
    assert AlignItemsOf(i1.YogaValue()) == Wrappers.Some(i1);
    assert AlignItemsOf(i2.YogaValue()) == Wrappers.Some(i2);
    assert AlignSelfOf(s1.YogaValue()) == Wrappers.Some(s1);
    assert AlignSelfOf(s2.YogaValue()) == Wrappers.Some(s2);
    assert WrapOf(w1.YogaValue()) == w1 && WrapOf(w2.YogaValue()) == w2;
    assert PositionOf(p1.YogaValue()) == p1 && PositionOf(p2.YogaValue()) == p2;
    assert LayoutDirectionOf(l1.YogaValue()) == l1 && LayoutDirectionOf(l2.YogaValue()) == l2;
    assert DisplayOf(x1.YogaValue()) == x1 && DisplayOf(x2.YogaValue()) == x2;
  }

  /** The `AlignContent` case an `AlignItems` case shares its name with, if any. */
  function ItemsAsContent(a: AlignItems): Wrappers.Option<AlignContent>
  {
    match a
    case Stretch => Wrappers.Some(AlignContent.Stretch)
    case Start => Wrappers.Some(AlignContent.Start)
    case Center => Wrappers.Some(AlignContent.Center)
    case End => Wrappers.Some(AlignContent.End)
    case Baseline => Wrappers.None
  }

  /** `AlignItems` and `AlignContent` give the same Yoga value exactly on the cases they
      share: stretch, start, center and end. */
  lemma AlignItemsAgreeWithContent(a: AlignItems, c: AlignContent)
    ensures a.YogaValue() == c.YogaValue() <==> ItemsAsContent(a) == Wrappers.Some(c)
  {
  }

  /** The `AlignSelf` case of the same name as an `AlignItems` case. */
  function ItemsAsSelf(a: AlignItems): (s: AlignSelf)
    ensures s != AlignSelf.Auto
  {
    match a
    case Stretch => AlignSelf.Stretch
    case Start => AlignSelf.Start
    case Center => AlignSelf.Center
    case End => AlignSelf.End
    case Baseline => AlignSelf.Baseline
  }

  /** `AlignSelf` maps `auto` to Yoga's `auto` and every other case as `AlignItems` does. */
  lemma AlignSelfExtendsAlignItems(s: AlignSelf)
    ensures s == AlignSelf.Auto ==> s.YogaValue() == Y.YGAlign.Auto
    ensures s != AlignSelf.Auto ==>
      exists a: AlignItems :: ItemsAsSelf(a) == s && a.YogaValue() == s.YogaValue()
  {
    if s != AlignSelf.Auto {
      var a: AlignItems := match s
        case Stretch => AlignItems.Stretch
        case Start => AlignItems.Start
        case Center => AlignItems.Center
        case End => AlignItems.End
        case _ => AlignItems.Baseline;
      assert ItemsAsSelf(a) == s && a.YogaValue() == s.YogaValue();
    }
  }
}
