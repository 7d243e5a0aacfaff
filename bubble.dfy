// The key points and the corner sequence of the bubble mask (`BubbleMaskLayer.swift`):
// an arrow of three points on one side of a rectangle, then the rectangle's four
// corners, visited clockwise starting from the corner that follows the arrow.
module BubbleMask {
  import opened Wrappers
  import opened UIKitModel

  /** `ArrowDirection`, an `Int` enum. */
  datatype ArrowDirection = Right | Bottom | Left | Top
  {
    function RawValue(): (n: nat)
      ensures n < 4
      ensures this == DirectionOfRaw(n)
    {
      match this
      case Right => 0
      case Bottom => 1
      case Left => 2
      case Top => 3
    }
  }

  function DirectionOfRaw(n: nat): ArrowDirection
    requires n < 4
  {
    if n == 0 then Right else if n == 1 then Bottom else if n == 2 then Left else Top
  }

  /** What the key points depend on: the layer's size and corner radius and the arrow's
      size, side and relative position along that side. */
  datatype Geometry = Geometry(
    bounds: Size, cornerRadius: real, arrowSize: Size, direction: ArrowDirection, position: real)

  /** How far the tip may move along a horizontal side, and along a vertical one. */
  function TipXRange(g: Geometry): real
  {
    g.bounds.width - 2.0 * g.cornerRadius - g.arrowSize.width
  }

  function TipYRange(g: Geometry): real
  {
    g.bounds.height - 2.0 * g.cornerRadius - g.arrowSize.width
  }

  /** The arrow's tip. */
  function Tip(g: Geometry): Point
  {
    match g.direction
    case Right => Point(g.bounds.width, g.bounds.height / 2.0 + TipYRange(g) * (g.position - 0.5))
    case Bottom => Point(g.bounds.width / 2.0 + TipXRange(g) * (g.position - 0.5), g.bounds.height)
    case Left => Point(0.0, g.bounds.height / 2.0 + TipYRange(g) * (g.position - 0.5))
    case Top => Point(g.bounds.width / 2.0 + TipXRange(g) * (g.position - 0.5), 0.0)
  }

  /** The point where the outline enters the arrow. */
  function ArrowBegin(g: Geometry): Point
  {
    var t := Tip(g);
    match g.direction
    case Right => Point(t.x - g.arrowSize.height, t.y - g.arrowSize.width / 2.0)
    case Bottom => Point(t.x + g.arrowSize.width / 2.0, t.y - g.arrowSize.height)
    case Left => Point(t.x + g.arrowSize.height, t.y + g.arrowSize.width / 2.0)
    case Top => Point(t.x - g.arrowSize.width / 2.0, t.y + g.arrowSize.height)
  }

  /** The point where the outline leaves the arrow. */
  function ArrowEnd(g: Geometry): Point
  {
    var b := ArrowBegin(g);
    match g.direction
    case Right => Point(b.x, b.y + g.arrowSize.width)
    case Bottom => Point(b.x - g.arrowSize.width, b.y)
    case Left => Point(b.x, b.y - g.arrowSize.width)
    case Top => Point(b.x + g.arrowSize.width, b.y)
  }

  /** The rectangle left for the body: the bounds less the arrow's depth on the arrow's side. */
  function Body(g: Geometry): Rect
  {
    var w := g.bounds.width;
    var h := g.bounds.height;
    var d := g.arrowSize.height;
    match g.direction
    case Right => Rect(Point(0.0, 0.0), Size(w - d, h))
    case Bottom => Rect(Point(0.0, 0.0), Size(w, h - d))
    case Left => Rect(Point(d, 0.0), Size(w - d, h))
    case Top => Rect(Point(0.0, d), Size(w, h - d))
  }

  /** The body's corners in the order bottom-right, bottom-left, top-left, top-right. */
  function Corners(r: Rect): (c: seq<Point>)
    ensures |c| == 4
  {
    var x := r.origin.x;
    var y := r.origin.y;
    [Point(x + r.size.width, y + r.size.height), Point(x, y + r.size.height),
     Point(x, y), Point(x + r.size.width, y)]
  }

  /** The seven key points: the arrow's begin, tip and end, then the four corners starting
      from the one at the arrow direction's raw value. */
  function KeyPoints(g: Geometry): (ps: seq<Point>)
    ensures |ps| == 7
    ensures ps[0] == ArrowBegin(g) && ps[1] == Tip(g) && ps[2] == ArrowEnd(g)
    ensures forall k :: 3 <= k < 7 ==> ps[k] == Corners(Body(g))[Turn(g.direction.RawValue(), k - 3)]
  {
    var corners := Corners(Body(g));
    var n := g.direction.RawValue();
    [ArrowBegin(g), Tip(g), ArrowEnd(g)] + seq(4, k requires 0 <= k < 4 => corners[Turn(n, k)])
  }

  /** The corner index `k` steps clockwise from corner `n`: `(n + k) % 4`. */
  function Turn(n: nat, k: nat): (t: nat)
    requires n < 4 && k < 4
    ensures t < 4 && t == (n + k) % 4
  {
    if n + k < 4 then n + k else n + k - 4
  }

  /** The corners are the body's corners rotated to start at the arrow's raw value. */
  lemma {:induction false} CornersAreRotated(g: Geometry)
    ensures var n := g.direction.RawValue();
      KeyPoints(g)[3..] == Corners(Body(g))[n..] + Corners(Body(g))[..n]
  {
    var n := g.direction.RawValue();
    var c := Corners(Body(g));
    var ps := KeyPoints(g);
    forall k | 0 <= k < 4
      ensures ps[3..][k] == (c[n..] + c[..n])[k]
    {
      assert ps[3..][k] == ps[3 + k] == c[Turn(n, k)];
      if n + k < 4 {
        assert (c[n..] + c[..n])[k] == c[n + k];
      } else {
        assert (c[n..] + c[..n])[k] == c[n + k - 4];
      }
    }
  }

  /** After an arrow on the right the outline turns down to the body's bottom-right corner;
      an arrow at the bottom leads to bottom-left, on the left to top-left, at the top to
      top-right. */
  lemma FirstCornerFollowsArrow(g: Geometry)
    ensures var b := Body(g);
      KeyPoints(g)[3] ==
        match g.direction
        case Right => Point(b.origin.x + b.size.width, b.origin.y + b.size.height)
        case Bottom => Point(b.origin.x, b.origin.y + b.size.height)
        case Left => b.origin
        case Top => Point(b.origin.x + b.size.width, b.origin.y)
  {
  }

  /** An arrow on the right or left: the tip is on that edge and the body is narrower by the
      arrow's depth; on the left the body also starts after the arrow. */
  lemma HorizontalArrowPlacement(g: Geometry)
    requires g.direction == Right || g.direction == Left
    ensures Tip(g).x == (if g.direction == Right then g.bounds.width else 0.0)
    ensures Body(g).size == Size(g.bounds.width - g.arrowSize.height, g.bounds.height)
    ensures Body(g).origin == Point(if g.direction == Left then g.arrowSize.height else 0.0, 0.0)
  {
  }

  /** An arrow at the bottom or top: the tip is on that edge and the body is shorter by the
      arrow's depth; at the top the body also starts below the arrow. */
  lemma VerticalArrowPlacement(g: Geometry)
    requires g.direction == Bottom || g.direction == Top
    ensures Tip(g).y == (if g.direction == Bottom then g.bounds.height else 0.0)
    ensures Body(g).size == Size(g.bounds.width, g.bounds.height - g.arrowSize.height)
    ensures Body(g).origin == Point(0.0, if g.direction == Top then g.arrowSize.height else 0.0)
  {
  }

  /** The arrow's base endpoints lie the arrow's width apart along its side, at the arrow's
      depth from the tip, with the tip midway between them. */
  lemma ArrowBaseShape(g: Geometry)
    ensures g.direction == Right || g.direction == Left ==>
      ArrowBegin(g).x == ArrowEnd(g).x
      && (if g.direction == Right then Tip(g).x - ArrowBegin(g).x else ArrowBegin(g).x - Tip(g).x) == g.arrowSize.height
      && (if g.direction == Right then ArrowEnd(g).y - ArrowBegin(g).y else ArrowBegin(g).y - ArrowEnd(g).y) == g.arrowSize.width
      && (ArrowBegin(g).y + ArrowEnd(g).y) / 2.0 == Tip(g).y
    ensures g.direction == Bottom || g.direction == Top ==>
      ArrowBegin(g).y == ArrowEnd(g).y
      && (if g.direction == Bottom then Tip(g).y - ArrowBegin(g).y else ArrowBegin(g).y - Tip(g).y) == g.arrowSize.height
      && (if g.direction == Bottom then ArrowBegin(g).x - ArrowEnd(g).x else ArrowEnd(g).x - ArrowBegin(g).x) == g.arrowSize.width
      && (ArrowBegin(g).x + ArrowEnd(g).x) / 2.0 == Tip(g).x
  {
  }

  /** The tip sits the range times (position - 0.5) away from the middle of its side, so a
      position of 0.5 centres the arrow. */
  lemma TipOffsetFromCentre(g: Geometry)
    ensures g.direction == Right || g.direction == Left ==>
      Tip(g).y - g.bounds.height / 2.0 == TipYRange(g) * (g.position - 0.5)
    ensures g.direction == Bottom || g.direction == Top ==>
      Tip(g).x - g.bounds.width / 2.0 == TipXRange(g) * (g.position - 0.5)
    ensures g.position == 0.5 ==>
      if g.direction == Right || g.direction == Left then Tip(g).y == g.bounds.height / 2.0
      else Tip(g).x == g.bounds.width / 2.0
  {
  }

  /** `range * (position - 0.5)` stays within half the range either way. */
  lemma ScaledOffsetBounds(range: real, position: real)
    requires 0.0 <= range && 0.0 <= position <= 1.0
    ensures -range / 2.0 <= range * (position - 0.5) <= range / 2.0
  {
    assert range * position <= range * 1.0;
    assert 0.0 <= range * position;
  }

  /** With a position in [0, 1] the tip stays within half the range of the middle of its
      side. */
  lemma TipWithinRange(g: Geometry)
    requires 0.0 <= g.position <= 1.0
    ensures g.direction == Right || g.direction == Left ==> 0.0 <= TipYRange(g) ==>
      g.bounds.height / 2.0 - TipYRange(g) / 2.0 <= Tip(g).y <= g.bounds.height / 2.0 + TipYRange(g) / 2.0
    ensures g.direction == Bottom || g.direction == Top ==> 0.0 <= TipXRange(g) ==>
      g.bounds.width / 2.0 - TipXRange(g) / 2.0 <= Tip(g).x <= g.bounds.width / 2.0 + TipXRange(g) / 2.0
  {
    if g.direction == Right || g.direction == Left {
      if 0.0 <= TipYRange(g) {
        ScaledOffsetBounds(TipYRange(g), g.position);
      }
    } else if 0.0 <= TipXRange(g) {
      ScaledOffsetBounds(TipXRange(g), g.position);
    }
  }

  /** With a position in [0, 1] and room for the arrow, the base of an arrow on the right
      or left stays between the rounded corners of that side. */
  lemma {:induction false} SideArrowClearsCorners(g: Geometry)
    requires g.direction == Right || g.direction == Left
    requires 0.0 <= g.position <= 1.0 && 0.0 <= g.arrowSize.width && 0.0 <= TipYRange(g)
    ensures g.cornerRadius <= ArrowBegin(g).y <= g.bounds.height - g.cornerRadius
    ensures g.cornerRadius <= ArrowEnd(g).y <= g.bounds.height - g.cornerRadius
  {
    TipWithinRange(g);
  }

  /** The same for an arrow at the bottom or top, along the horizontal side. */
  lemma {:induction false} EdgeArrowClearsCorners(g: Geometry)
    requires g.direction == Bottom || g.direction == Top
    requires 0.0 <= g.position <= 1.0 && 0.0 <= g.arrowSize.width && 0.0 <= TipXRange(g)
    ensures g.cornerRadius <= ArrowBegin(g).x <= g.bounds.width - g.cornerRadius
    ensures g.cornerRadius <= ArrowEnd(g).x <= g.bounds.width - g.cornerRadius
  {
    TipWithinRange(g);
  }

  /** The key point after point `i`, wrapping from the last to the first: `(i + 1) % 7`. */
  function NextCorner(i: nat): (j: nat)
    requires i < 7
    ensures j < 7 && j == (i + 1) % 7
  {
    if i < 6 then i + 1 else 0
  }

  /** `addArc(tangent1End:tangent2End:radius:)`. */
  datatype Arc = Arc(tangent1End: Point, tangent2End: Point, radius: real)

  /** The outline: a starting point, the rounded corners in order, and whether it is closed. */
  datatype Outline = Outline(start: Point, arcs: seq<Arc>, closed: bool)

  /** The outline through seven key points: it starts at the last one and rounds every point
      in turn towards the next, wrapping from the last to the first; the three arrow corners
      take the arrow radius, the four body corners the corner radius. */
  function OutlineThrough(points: seq<Point>, arrowRadius: real, cornerRadius: real): (o: Outline)
    requires |points| == 7
    ensures o.start == points[6] && o.closed && |o.arcs| == 7
    ensures forall i :: 0 <= i < 7 ==> o.arcs[i].tangent1End == points[i]
    ensures forall i :: 0 <= i < 6 ==> o.arcs[i].tangent2End == points[i + 1]
    ensures o.arcs[6].tangent2End == points[0]
    ensures forall i :: 0 <= i < 7 ==> o.arcs[i].radius == if i < 3 then arrowRadius else cornerRadius
  {
    Outline(points[6],
            seq(7, i requires 0 <= i < 7 =>
              Arc(points[i], points[NextCorner(i)], if i < 3 then arrowRadius else cornerRadius)),
            true)
  }

  /** `BubbleMaskLayer`. */
  class BubbleMaskLayer {
    const arrowRadius: real
    const arrowSize: Size
    const arrowDirection: ArrowDirection
    const arrowPosition: real
    /** The layer's own size and corner radius. */
    var bounds: Size
    var cornerRadius: real
    var path: Option<Outline>

    function Shape(): (g: Geometry)
      reads this
      ensures g.bounds == bounds && g.cornerRadius == cornerRadius && g.arrowSize == arrowSize
      ensures g.direction == arrowDirection && g.position == arrowPosition
    {
      Geometry(bounds, cornerRadius, arrowSize, arrowDirection, arrowPosition)
    }

    /** `init(arrowSize:arrowDirection:arrowPosition:arrowRadius:)`, with its defaults: a 30 by
        12 arrow, at the bottom, centred, with sharp corners. */
    constructor (arrowSize: Size := Size(30.0, 12.0), arrowDirection: ArrowDirection := Bottom,
                 arrowPosition: real := 0.5, arrowRadius: real := 0.0)
      ensures this.arrowSize == arrowSize && this.arrowDirection == arrowDirection
      ensures this.arrowPosition == arrowPosition && this.arrowRadius == arrowRadius
      ensures bounds == Size(0.0, 0.0) && cornerRadius == 0.0 && path == None
    {
      this.arrowSize := arrowSize;
      this.arrowDirection := arrowDirection;
      this.arrowPosition := arrowPosition;
      this.arrowRadius := arrowRadius;
      bounds := Size(0.0, 0.0);
      cornerRadius := 0.0;
      path := None;
    }

    /** `_bubblePoints`: the arrow's three points, then the corners appended one by one from
        the arrow direction's raw value, wrapping round the four. */
    method BubblePoints() returns (points: seq<Point>)
      ensures points == KeyPoints(Shape())
    {
      var g := Shape();
      points := [ArrowBegin(g), Tip(g), ArrowEnd(g)];
      var rectPoints := Corners(Body(g));
      var rectPointIndex := arrowDirection.RawValue();
      for i := 0 to 4
        invariant |points| == 3 + i
        invariant rectPointIndex == (arrowDirection.RawValue() + i) % 4
        invariant points[..3] == [ArrowBegin(g), Tip(g), ArrowEnd(g)]
        invariant forall k :: 3 <= k < 3 + i ==> points[k] == rectPoints[Turn(arrowDirection.RawValue(), k - 3)]
      {
        assert rectPointIndex == Turn(arrowDirection.RawValue(), i);
        points := points + [rectPoints[rectPointIndex]];
        rectPointIndex := (rectPointIndex + 1) % 4;
      }
      assert points[..3] == KeyPoints(g)[..3];
    }

    /** `_bubblePath`: starts at the last key point and adds the seven rounded corners in a
        counted loop. */
    method BubblePath() returns (o: Outline)
      ensures o == OutlineThrough(KeyPoints(Shape()), arrowRadius, cornerRadius)
    {
      var points := BubblePoints();
      var arcs: seq<Arc> := [];
      var count := 0;
      while count < 7
        invariant 0 <= count <= 7 && |arcs| == count
        invariant forall i :: 0 <= i < count ==>
          arcs[i] == Arc(points[i], points[NextCorner(i)], if i < 3 then arrowRadius else cornerRadius)
      {
        var radius := if count < 3 then arrowRadius else cornerRadius;
        assert (count + 1) % 7 == NextCorner(count);
        arcs := arcs + [Arc(points[count], points[(count + 1) % 7], radius)];
        count := count + 1;
      }
      o := Outline(points[6], arcs, true);
    }

    /** Setting `frame` resizes the layer and redraws its path. */
    method SetFrame(frame: Rect)
      modifies this
      ensures bounds == frame.size && cornerRadius == old(cornerRadius)
      ensures path == Some(OutlineThrough(KeyPoints(Shape()), arrowRadius, cornerRadius))
    {
      bounds := frame.size;
      var o := BubblePath();
      path := Some(o);
    }
  }
}
