/** The pen game component: one mutable state record, changed only by its
    event handlers, each of which runs as one atomic update. */
module Game {
  import opened Features
  import opened Shapes

  datatype Option<T> = None | Some(value: T)

  /** Initial settings of the drawing surface. */
  const DefaultColor: string := "#000000"
  const DefaultStrokeWidth: int := 4
  const DefaultShapeWidth: int := 100
  const DefaultShapeHeight: int := 100
  const DefaultShapeRadius: int := 50

  class PenGame {
    // Feature picker and phase flags.
    var selectedFeatures: seq<string>
    var description: string
    var showCanvas: bool
    var showThankYou: bool
    // Settings for the next shape or freehand stroke.
    var strokeColor: string
    var strokeWidth: int
    var currentShape: string
    var shapeWidth: int
    var shapeHeight: int
    var shapeRadius: int
    // Placed shapes, in placement order (later ones on top).
    var shapes: seq<Shape>
    // Freehand gesture.
    var drawingPoints: seq<Point>
    var isDrawing: bool
    // Drag session: the dragged shape's index and the pointer offset from its anchor.
    var dragging: Option<nat>
    var offsetX: real
    var offsetY: real
    /** What has been drawn on the canvas since it was last cleared. */
    var surface: seq<DrawCommand>

    /** The state invariant: the selection is capped and duplicate-free, and
        exactly three features are held whenever the drawing view is shown; a
        drag session names an existing shape, and a freehand gesture in
        progress has recorded at least its starting point. Once the thank-you
        view is shown the drawing view is the one it replaced. */
    ghost predicate Valid()
      reads this
    {
      ValidSelection(selectedFeatures) &&
      (showCanvas ==> |selectedFeatures| == MaxSelected) &&
      (dragging.Some? ==> dragging.value < |shapes|) &&
      (isDrawing ==> drawingPoints != []) &&
      (showThankYou ==> showCanvas)
    }

    /** The "Proceed" button is rendered only on the picker with exactly three
        features held, that is, when every catalog button is disabled. */
    predicate CanProceed()
      reads this
      ensures CanProceed() ==> forall f :: !ButtonEnabled(selectedFeatures, f)
    {
      !showCanvas && |selectedFeatures| == MaxSelected
    }

    /** The drawing view (with "Go Back", the canvas and "Submit") is on screen. */
    predicate Drawing()
      reads this
      ensures Drawing() && Valid() ==> |selectedFeatures| == MaxSelected && !CanProceed()
    {
      showCanvas && !showThankYou
    }

    constructor ()
      ensures Valid()
      ensures selectedFeatures == [] && description == ""
      ensures !showCanvas && !showThankYou
      ensures strokeColor == DefaultColor && strokeWidth == DefaultStrokeWidth
      ensures currentShape == Freehand
      ensures shapeWidth == DefaultShapeWidth && shapeHeight == DefaultShapeHeight
      ensures shapeRadius == DefaultShapeRadius
      ensures shapes == [] && drawingPoints == [] && !isDrawing
      ensures dragging == None && offsetX == 0.0 && offsetY == 0.0
      ensures surface == []
    {
      selectedFeatures, description := [], "";
      showCanvas, showThankYou := false, false;
      strokeColor, strokeWidth := DefaultColor, DefaultStrokeWidth;
      currentShape := Freehand;
      shapeWidth, shapeHeight, shapeRadius := DefaultShapeWidth, DefaultShapeHeight, DefaultShapeRadius;
      shapes, drawingPoints, isDrawing := [], [], false;
      dragging, offsetX, offsetY := None, 0.0, 0.0;
      surface := [];
    }

    /** A click on a catalog button, which exists only on the picker:
        toggles the label in the selection. */
    method SelectFeature(feature: string)
      requires Valid() && !showCanvas
      modifies this`selectedFeatures
      ensures Valid()
      ensures selectedFeatures == Toggle(old(selectedFeatures), feature)
    {
      ToggleKeepsValid(selectedFeatures, feature);
      if feature in selectedFeatures {
        selectedFeatures := Remove(selectedFeatures, feature);
      } else if |selectedFeatures| < MaxSelected {
        selectedFeatures := selectedFeatures + [feature];
      }
    }

    /** "Proceed to Drawing Stage": switches to the drawing view. */
    method Proceed()
      requires Valid() && CanProceed()
      modifies this`showCanvas
      ensures Valid() && showCanvas
    {
      showCanvas := true;
    }

    /** "Go Back": returns to the picker; shapes, description and settings stay. */
    method GoBack()
      requires Valid() && Drawing()
      modifies this`showCanvas
      ensures Valid() && !showCanvas
    {
      showCanvas := false;
    }

    /** "Submit Pen Design": shows the thank-you view; nothing is validated or sent. */
    method Submit()
      requires Valid() && Drawing()
      modifies this`showThankYou
      ensures Valid() && showThankYou
    {
      showThankYou := true;
    }

    /** The description text area. */
    method SetDescription(text: string)
      requires Valid()
      modifies this`description
      ensures Valid() && description == text
    {
      description := text;
    }

    /** The colour picker. */
    method SetColor(color: string)
      requires Valid()
      modifies this`strokeColor
      ensures Valid() && strokeColor == color
    {
      strokeColor := color;
    }

    /** The brush size slider. */
    method SetBrushSize(size: int)
      requires Valid()
      modifies this`strokeWidth
      ensures Valid() && strokeWidth == size
    {
      strokeWidth := size;
    }

    /** The tool buttons. */
    method SelectTool(tool: string)
      requires Valid()
      modifies this`currentShape
      ensures Valid() && currentShape == tool
    {
      currentShape := tool;
    }

    /** The shape width input. */
    method SetShapeWidth(width: int)
      requires Valid()
      modifies this`shapeWidth
      ensures Valid() && shapeWidth == width
    {
      shapeWidth := width;
    }

    /** The shape height input. */
    method SetShapeHeight(height: int)
      requires Valid()
      modifies this`shapeHeight
      ensures Valid() && shapeHeight == height
    {
      shapeHeight := height;
    }

    /** The circle radius input. */
    method SetShapeRadius(radius: int)
      requires Valid()
      modifies this`shapeRadius
      ensures Valid() && shapeRadius == radius
    {
      shapeRadius := radius;
    }

    /** Scans the shapes from the topmost down and returns the index of the
        first one that contains the point, or -1 when none does. */
    method GetClickedShape(px: real, py: real) returns (hit: int)
      ensures hit == TopmostHit(shapes, px, py)
    {
      var i := |shapes| - 1;
      assert shapes[..i + 1] == shapes;
      while i >= 0
        invariant -1 <= i < |shapes|
        invariant TopmostHit(shapes[..i + 1], px, py) == TopmostHit(shapes, px, py)
      {
        if Hits(shapes[i], px, py) {
          return i;
        }
        assert shapes[..i + 1][..i] == shapes[..i];
        i := i - 1;
      }
      return -1;
    }

    /** Clears the canvas and paints every placed shape in order. */
    method RedrawCanvas()
      modifies this`surface
      ensures surface == Redraw(shapes)
    {
      surface := [];
      var k := 0;
      while k < |shapes|
        invariant 0 <= k <= |shapes|
        invariant surface == Redraw(shapes[..k])
      {
        assert shapes[..k + 1] == shapes[..k] + [shapes[k]];
        RedrawAppend(shapes[..k], shapes[k]);
        surface := surface + Draw(shapes[k]);
        k := k + 1;
      }
      assert shapes[..k] == shapes;
    }

    /** Starts a freehand stroke at `(px, py)` with the current colour and width. */
    method StartStroke(px: real, py: real)
      requires Valid()
      modifies this`isDrawing, this`drawingPoints, this`surface
      ensures Valid()
      ensures isDrawing && drawingPoints == [Point(px, py)]
      ensures surface == old(surface) + [BeginPath(Point(px, py), strokeColor, strokeWidth)]
    {
      isDrawing := true;
      surface := surface + [BeginPath(Point(px, py), strokeColor, strokeWidth)];
      drawingPoints := [Point(px, py)];
    }

    /** Starts a drag session on shape `i`, pressed at `(px, py)`, keeping
        the pointer's offset from the shape's anchor. */
    method GrabShape(i: nat, px: real, py: real)
      requires Valid() && i < |shapes|
      modifies this`dragging, this`offsetX, this`offsetY
      ensures Valid()
      ensures dragging == Some(i) && offsetX == px - shapes[i].x && offsetY == py - shapes[i].y
    {
      dragging := Some(i);
      offsetX := px - shapes[i].x;
      offsetY := py - shapes[i].y;
    }

    /** Appends a shape built from the current settings at `(px, py)`,
        ends any drag session and redraws the canvas. */
    method PlaceShape(px: real, py: real)
      requires Valid()
      modifies this`shapes, this`dragging, this`surface
      ensures Valid()
      ensures shapes == old(shapes) + [Shape(currentShape, px, py, shapeWidth, shapeHeight, shapeRadius,
                                              strokeColor, strokeWidth)]
      ensures dragging == None && surface == Redraw(shapes)
    {
      var placed := Shape(currentShape, px, py, shapeWidth, shapeHeight, shapeRadius,
                          strokeColor, strokeWidth);
      shapes := shapes + [placed];
      dragging := None;
      RedrawCanvas();
    }

    /** Pointer pressed at `(px, py)`; `ready` says whether the canvas and its
        drawing context exist. With the freehand tool a new stroke starts
        there. With any other tool the topmost shape under the pointer is
        grabbed, or, when there is none, a new shape with the current settings
        is placed there and the canvas redrawn. */
    method MouseDown(px: real, py: real, ready: bool)
      requires Valid()
      modifies this`isDrawing, this`drawingPoints, this`dragging, this`offsetX, this`offsetY
      modifies this`shapes, this`surface
      ensures Valid()
      ensures !ready ==> unchanged(this)
      ensures ready && currentShape == Freehand ==>
        isDrawing && drawingPoints == [Point(px, py)] &&
        surface == old(surface) + [BeginPath(Point(px, py), strokeColor, strokeWidth)] &&
        shapes == old(shapes) && dragging == old(dragging) &&
        offsetX == old(offsetX) && offsetY == old(offsetY)
      ensures ready && currentShape != Freehand && TopmostHit(old(shapes), px, py) != -1 ==>
        var h := TopmostHit(old(shapes), px, py);
        dragging == Some(h) && offsetX == px - shapes[h].x && offsetY == py - shapes[h].y &&
        shapes == old(shapes) && surface == old(surface) &&
        isDrawing == old(isDrawing) && drawingPoints == old(drawingPoints)
      ensures ready && currentShape != Freehand && TopmostHit(old(shapes), px, py) == -1 ==>
        shapes == old(shapes) + [Shape(currentShape, px, py, shapeWidth, shapeHeight, shapeRadius,
                                       strokeColor, strokeWidth)] &&
        dragging == None && surface == Redraw(shapes) &&
        offsetX == old(offsetX) && offsetY == old(offsetY) &&
        isDrawing == old(isDrawing) && drawingPoints == old(drawingPoints)
    {
      if !ready {
        return;
      }
      if currentShape == Freehand {
        StartStroke(px, py);
      } else {
        var hit := GetClickedShape(px, py);
        if hit != -1 {
          GrabShape(hit, px, py);
        } else {
          PlaceShape(px, py);
        }
      }
    }

    /** Pointer moved to `(px, py)`. With the freehand tool, while a stroke is
        in progress, the stroke is extended there. With any other tool, while
        a shape is dragged, that shape's anchor follows the pointer at the
        offset captured at the press and the canvas is redrawn. */
    method MouseMove(px: real, py: real, ready: bool)
      requires Valid()
      modifies this`drawingPoints, this`shapes, this`surface
      ensures Valid()
      ensures !ready ==> unchanged(this)
      ensures ready && currentShape == Freehand ==>
        shapes == old(shapes) &&
        if isDrawing then
          drawingPoints == old(drawingPoints) + [Point(px, py)] &&
          surface == old(surface) + [PathTo(Point(px, py))]
        else
          drawingPoints == old(drawingPoints) && surface == old(surface)
      ensures ready && currentShape != Freehand ==>
        drawingPoints == old(drawingPoints) &&
        match dragging
        case None => shapes == old(shapes) && surface == old(surface)
        case Some(d) =>
          shapes == MoveTo(old(shapes), d, px - offsetX, py - offsetY) &&
          surface == Redraw(shapes)
    {
      if !ready {
        return;
      }
      if currentShape == Freehand {
        if !isDrawing {
          return;
        }
        surface := surface + [PathTo(Point(px, py))];
        drawingPoints := drawingPoints + [Point(px, py)];
      } else {
        if dragging == None {
          return;
        }
        var d := dragging.value;
        shapes := shapes[d := shapes[d].(x := px - offsetX, y := py - offsetY)];
        RedrawCanvas();
      }
    }

    /** Pointer released: ends the session of the current tool only, the
        freehand stroke or the drag, and leaves the other one as it was. */
    method MouseUp()
      requires Valid()
      modifies this`isDrawing, this`dragging
      ensures Valid()
      ensures currentShape == Freehand ==> !isDrawing && dragging == old(dragging)
      ensures currentShape != Freehand ==> dragging == None && isDrawing == old(isDrawing)
    {
      if currentShape == Freehand {
        isDrawing := false;
      } else {
        dragging := None;
      }
    }
  }
}
