/** Shapes placed on the pen game's canvas: which of them a pointer press
    hits, how dragging repositions them, and what a full redraw paints. */
module Shapes {

  /** Tool names; a shape's kind is the tool that was active when it was placed. */
  const Freehand: string := "freehand"
  const Circle: string := "circle"
  const Rectangle: string := "rectangle"
  const Line: string := "line"

  /** A canvas position in canvas coordinates. */
  datatype Point = Point(x: real, y: real)

  /** A placed shape. `(x, y)` is the top-left corner of a rectangle or line
      and the centre of a circle; the sizes and stroke width come from
      integer inputs, the position from the pointer. */
  datatype Shape = Shape(
    kind: string,
    x: real,
    y: real,
    width: int,
    height: int,
    radius: int,
    color: string,
    strokeWidth: int)

  /** Rectangles and lines are both treated as an axis-aligned box. */
  predicate IsBox(s: Shape) {
    s.kind == Rectangle || s.kind == Line
  }

  /** Whether a press at `(px, py)` lands on `s`: strictly inside the box for
      a rectangle or line, at distance less than the radius from the centre
      for a circle (squared, with a positive radius), never for any other kind. */
  predicate Hits(s: Shape, px: real, py: real)
    ensures Hits(s, px, py) ==> IsBox(s) || s.kind == Circle
    ensures Hits(s, px, py) && IsBox(s) ==> s.width > 0 && s.height > 0
    ensures Hits(s, px, py) && s.kind == Circle ==> s.radius > 0
  {
    if IsBox(s) then
      px > s.x && px < s.x + s.width as real &&
      py > s.y && py < s.y + s.height as real
    else if s.kind == Circle then
      s.radius > 0 &&
      (px - s.x) * (px - s.x) + (py - s.y) * (py - s.y) < (s.radius * s.radius) as real
    else
      false
  }

  /** Index of the topmost (latest placed) shape hit by the press, or -1. */
  function TopmostHit(shapes: seq<Shape>, px: real, py: real): (r: int)
    ensures -1 <= r < |shapes|
    ensures r >= 0 ==> Hits(shapes[r], px, py)
  {
    if shapes == [] then -1
    else if Hits(shapes[|shapes| - 1], px, py) then |shapes| - 1
    else TopmostHit(shapes[..|shapes| - 1], px, py)
  }

  /** The hit test picks the largest index whose shape contains the point,
      and reports -1 exactly when no shape contains it. */
  lemma {:induction false} TopmostHitIsLastHit(shapes: seq<Shape>, px: real, py: real)
    ensures var r := TopmostHit(shapes, px, py);
      (r == -1 <==> forall i :: 0 <= i < |shapes| ==> !Hits(shapes[i], px, py)) &&
      (r >= 0 ==> forall j :: r < j < |shapes| ==> !Hits(shapes[j], px, py))
  {
    if shapes != [] && !Hits(shapes[|shapes| - 1], px, py) {
      var init := shapes[..|shapes| - 1];
      TopmostHitIsLastHit(init, px, py);
      assert forall i :: 0 <= i < |init| ==> init[i] == shapes[i];
    }
  }

  /** A shape of a kind other than rectangle, line and circle is never hit:
      whatever else the collection holds, the hit test never returns such a
      shape, and a collection made only of such shapes is never hit at all. */
  lemma OtherKindsNeverHit(shapes: seq<Shape>, px: real, py: real)
    ensures var r := TopmostHit(shapes, px, py);
      r >= 0 ==> shapes[r].kind in {Rectangle, Line, Circle}
    ensures (forall i :: 0 <= i < |shapes| ==> shapes[i].kind !in {Rectangle, Line, Circle})
            ==> TopmostHit(shapes, px, py) == -1
  {
    TopmostHitIsLastHit(shapes, px, py);
  }

  /** The open box excludes its own corner: a press at the anchor of a
      rectangle or line just placed there does not grab it, and the hit test
      answers as it did before the placement. */
  lemma BoxMissesItsAnchor(shapes: seq<Shape>, s: Shape)
    requires IsBox(s)
    ensures TopmostHit(shapes + [s], s.x, s.y) == TopmostHit(shapes, s.x, s.y)
  {
    assert (shapes + [s])[..|shapes|] == shapes;
  }

  /** A circle with a positive radius contains its own centre. */
  lemma CentreInside(s: Shape)
    requires s.kind == Circle && s.radius > 0
    ensures Hits(s, s.x, s.y)
  {
    var dx, dy := s.x - s.x, s.y - s.y;
    assert dx == 0.0 && dy == 0.0;
    assert dx * dx + dy * dy == 0.0;
    assert s.radius * s.radius > 0 by {
      assert s.radius * s.radius >= s.radius * 1;
    }
  }

  /** A press at the centre of a circle just placed there with a positive
      radius grabs that circle. */
  lemma CircleHitsItsCentre(shapes: seq<Shape>, s: Shape)
    requires s.kind == Circle && s.radius > 0
    ensures TopmostHit(shapes + [s], s.x, s.y) == |shapes|
  {
    CentreInside(s);
  }

  /** `shapes` with shape `i` moved so that its anchor is `(nx, ny)`. */
  function MoveTo(shapes: seq<Shape>, i: nat, nx: real, ny: real): (r: seq<Shape>)
    requires i < |shapes|
    ensures |r| == |shapes| && r[i].x == nx && r[i].y == ny
  {
    shapes[i := shapes[i].(x := nx, y := ny)]
  }

  /** The shapes after a drag of shape `i` that was grabbed with pointer
      offset `(ox, oy)` and then followed the pointer through `moves`. */
  function DragAlong(shapes: seq<Shape>, i: nat, ox: real, oy: real, moves: seq<Point>): seq<Shape>
    requires i < |shapes|
    decreases |moves|
  {
    if moves == [] then shapes
    else DragAlong(MoveTo(shapes, i, moves[0].x - ox, moves[0].y - oy), i, ox, oy, moves[1..])
  }

  /** Only the later of two moves of the same shape matters. */
  lemma MoveToTwice(shapes: seq<Shape>, i: nat, x1: real, y1: real, x2: real, y2: real)
    requires i < |shapes|
    ensures MoveTo(MoveTo(shapes, i, x1, y1), i, x2, y2) == MoveTo(shapes, i, x2, y2)
  {
    var r := MoveTo(MoveTo(shapes, i, x1, y1), i, x2, y2);
    assert forall j :: 0 <= j < |shapes| ==> r[j] == MoveTo(shapes, i, x2, y2)[j];
  }

  /** A move rewrites the anchor of shape `i` only: every other shape and
      every other field of shape `i` stay as they were. */
  lemma MoveToMovesOnlyAnchor(shapes: seq<Shape>, i: nat, nx: real, ny: real)
    requires i < |shapes|
    ensures var r := MoveTo(shapes, i, nx, ny);
      |r| == |shapes| &&
      r[i].x == nx && r[i].y == ny &&
      r[i].kind == shapes[i].kind && r[i].width == shapes[i].width &&
      r[i].height == shapes[i].height && r[i].radius == shapes[i].radius &&
      r[i].color == shapes[i].color && r[i].strokeWidth == shapes[i].strokeWidth &&
      forall j :: 0 <= j < |shapes| && j != i ==> r[j] == shapes[j]
  {
  }

  /** Moving a shape to where it already is changes nothing. */
  lemma MoveToSame(shapes: seq<Shape>, i: nat, nx: real, ny: real)
    requires i < |shapes| && nx == shapes[i].x && ny == shapes[i].y
    ensures MoveTo(shapes, i, nx, ny) == shapes
  {
    var r := MoveTo(shapes, i, nx, ny);
    assert forall j :: 0 <= j < |shapes| ==> r[j] == shapes[j];
  }

  /** A drag keeps the pointer-to-shape offset captured at the press: after
      any non-empty run of moves the collection is the original one with only
      the dragged shape moved, to the last pointer position minus that offset. */
  lemma {:induction false} DragKeepsOffset(shapes: seq<Shape>, i: nat, ox: real, oy: real, moves: seq<Point>)
    requires i < |shapes| && moves != []
    ensures DragAlong(shapes, i, ox, oy, moves)
         == MoveTo(shapes, i, moves[|moves| - 1].x - ox, moves[|moves| - 1].y - oy)
    decreases |moves|
  {
    var next := MoveTo(shapes, i, moves[0].x - ox, moves[0].y - oy);
    if |moves| > 1 {
      DragKeepsOffset(next, i, ox, oy, moves[1..]);
      MoveToTwice(shapes, i, moves[0].x - ox, moves[0].y - oy,
                  moves[|moves| - 1].x - ox, moves[|moves| - 1].y - oy);
    }
  }

  /** A shape grabbed at `p` returns to its original position when the
      pointer comes back to `p`, whatever path it took in between. */
  lemma DragBackRestores(shapes: seq<Shape>, i: nat, p: Point, path: seq<Point>)
    requires i < |shapes|
    ensures var ox := p.x - shapes[i].x;
      var oy := p.y - shapes[i].y;
      DragAlong(shapes, i, ox, oy, path + [p]) == shapes
  {
    var ox := p.x - shapes[i].x;
    var oy := p.y - shapes[i].y;
    var moves := path + [p];
    DragKeepsOffset(shapes, i, ox, oy, moves);
    assert moves[|moves| - 1] == p;
    MoveToSame(shapes, i, p.x - ox, p.y - oy);
  }

  /** What one canvas call paints: an outlined box, a full circle outline,
      the start of a freehand path (no pixels yet) or a freehand `lineTo`
      followed by `stroke()` of the open path, recorded as its new segment only. */
  datatype DrawCommand =
    | StrokeBox(x: real, y: real, width: int, height: int, color: string, lineWidth: int)
    | StrokeCircle(cx: real, cy: real, radius: int, color: string, lineWidth: int)
    | BeginPath(at: Point, color: string, lineWidth: int)
    | PathTo(to: Point)

  /** The commands that paint one shape during a redraw. */
  function Draw(s: Shape): (r: seq<DrawCommand>)
    ensures |r| == (if IsBox(s) || s.kind == Circle then 1 else 0)
    ensures forall c :: c in r ==> c.StrokeBox? == IsBox(s) && c.StrokeCircle? == (s.kind == Circle)
  {
    if IsBox(s) then [StrokeBox(s.x, s.y, s.width, s.height, s.color, s.strokeWidth)]
    else if s.kind == Circle then [StrokeCircle(s.x, s.y, s.radius, s.color, s.strokeWidth)]
    else []
  }

  /** A full redraw: clear the canvas, then paint every shape in placement
      order, each with its own colour and stroke width. Freehand ink is never
      part of it. */
  function Redraw(shapes: seq<Shape>): (r: seq<DrawCommand>)
    ensures |r| <= |shapes|
    ensures forall c :: c in r ==> c.StrokeBox? || c.StrokeCircle?
  {
    if shapes == [] then []
    else Redraw(shapes[..|shapes| - 1]) + Draw(shapes[|shapes| - 1])
  }

  /** Placing a shape adds exactly its own paint on top of the earlier picture. */
  lemma RedrawAppend(shapes: seq<Shape>, s: Shape)
    ensures Redraw(shapes + [s]) == Redraw(shapes) + Draw(s)
  {
    assert (shapes + [s])[..|shapes|] == shapes;
  }

  /** The rectangles, lines and circles among `shapes`, in placement order. */
  function Drawable(shapes: seq<Shape>): (r: seq<Shape>)
    ensures |r| <= |shapes|
    ensures forall t :: t in r <==> t in shapes && (IsBox(t) || t.kind == Circle)
  {
    if shapes == [] then []
    else Drawable(shapes[..|shapes| - 1]) +
         (if IsBox(shapes[|shapes| - 1]) || shapes[|shapes| - 1].kind == Circle then [shapes[|shapes| - 1]] else [])
  }

  /** A redraw issues one command per rectangle, line or circle, in
      placement order: command `k` paints the `k`-th of them, a box for a
      rectangle or line and a circle outline for a circle. */
  lemma {:induction false} RedrawPaintsDrawable(shapes: seq<Shape>)
    ensures |Redraw(shapes)| == |Drawable(shapes)|
    ensures forall k :: 0 <= k < |Redraw(shapes)| ==> Redraw(shapes)[k] == Draw(Drawable(shapes)[k])[0]
  {
    if shapes != [] {
      RedrawPaintsDrawable(shapes[..|shapes| - 1]);
    }
  }
}
