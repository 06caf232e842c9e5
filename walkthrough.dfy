/** Sequences of handler calls of the pen game written against the
    handlers' contracts only: picking three features, a freehand stroke that
    a later redraw erases, placing and dragging a circle, and leaving the
    drawing view and coming back before submitting. Where a control is not
    on screen, is disabled, or no control is bound to a handler, the handler
    is called directly. */
module Walkthrough {
  import opened Features
  import opened Shapes
  import opened Game

  /** Three labels enable "Proceed"; a fourth one is ignored. Its button is
      disabled by then, so that press is a direct handler call. */
  method PickThree() {
    var g := new PenGame();
    g.SelectFeature("Smooth Grip");
    g.SelectFeature("Retractable Tip");
    assert !g.CanProceed();
    g.SelectFeature("Ink Color Change");
    assert g.selectedFeatures == ["Smooth Grip", "Retractable Tip", "Ink Color Change"];
    g.SelectFeature("LED Light");
    assert g.selectedFeatures == ["Smooth Grip", "Retractable Tip", "Ink Color Change"];
    assert g.CanProceed();
    g.Proceed();
    assert g.Drawing();
  }

  /** A freehand stroke is painted but never becomes a shape, so the redraw
      that follows the next shape placement erases it. */
  method FreehandInkIsErased() {
    var g := new PenGame();
    g.MouseDown(10.0, 10.0, true);
    assert g.isDrawing && g.drawingPoints == [Point(10.0, 10.0)];
    g.MouseMove(20.0, 25.0, true);
    assert PathTo(Point(20.0, 25.0)) in g.surface;
    g.MouseUp();
    assert !g.isDrawing && g.shapes == [];
    g.SelectTool(Rectangle);
    g.MouseDown(50.0, 50.0, true);
    assert |g.shapes| == 1;
    assert PathTo(Point(20.0, 25.0)) !in g.surface;
  }

  /** A circle of radius 30 placed at (100, 150) with the circle tool. No
      control is bound to the radius handler, so it is called directly. */
  method PlaceCircle() returns (g: PenGame)
    ensures fresh(g) && g.Valid() && g.currentShape == Circle && g.dragging == None
    ensures g.shapes == [Shape(Circle, 100.0, 150.0, DefaultShapeWidth, DefaultShapeHeight, 30,
                               DefaultColor, DefaultStrokeWidth)]
  {
    g := new PenGame();
    g.SelectTool(Circle);
    g.SetShapeRadius(30);
    g.MouseDown(100.0, 150.0, true);
  }

  /** The circle grabbed at its centre and dragged to (200, 150): only its x
      changes, and later setting changes leave it alone. The radius handler
      is again called directly. */
  method DragCircle() {
    var g := PlaceCircle();
    var c := g.shapes[0];
    assert Hits(c, 100.0, 150.0);
    g.MouseDown(100.0, 150.0, true);
    assert g.dragging == Some(0) && g.offsetX == 0.0 && g.offsetY == 0.0;
    g.MouseMove(200.0, 150.0, true);
    assert g.shapes == [c.(x := 200.0)];
    g.MouseUp();
    assert g.dragging == None;
    g.SetShapeRadius(5);
    g.SetColor("#0000ff");
    assert g.shapes == [c.(x := 200.0)];
  }

  /** "Go Back" and "Proceed" again keep the shapes; "Submit" then shows
      the thank-you view whatever the description says. */
  method BackAndSubmit(g: PenGame)
    requires g.Valid() && g.Drawing()
    modifies g
  {
    ghost var drawn := g.shapes;
    g.GoBack();
    assert g.CanProceed();
    g.Proceed();
    assert g.shapes == drawn && g.Drawing();
    g.SetDescription("A sleek blue pen");
    g.Submit();
    assert g.showThankYou && g.shapes == drawn;
  }
}
