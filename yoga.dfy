// The Yoga values the flex facade writes into a node. Yoga itself (the solver) is not
// part of this model; only the value types its node properties take are.
module Yoga {

  datatype YGFlexDirection = Column | ColumnReverse | Row | RowReverse

  datatype YGJustify = FlexStart | Center | FlexEnd | SpaceBetween | SpaceAround | SpaceEvenly

  datatype YGAlign = Auto | FlexStart | Center | FlexEnd | Stretch | Baseline | SpaceBetween | SpaceAround

  datatype YGWrap = NoWrap | Wrap | WrapReverse

  datatype YGPositionType = Relative | Absolute

  datatype YGDirection = Inherit | LTR | RTL

  datatype YGDisplay = Flex | None

  /** The dimension a layout pass may let grow past the container. */
  datatype YGDimensionFlexibility = FlexibleWidth | FlexibleHeight

  /** `YGValue`: a length in points, a percentage, `auto`, or undefined. */
  datatype YGValue = Undefined | Point(value: real) | Percent(value: real) | Auto
}
