/**
 * Clients of the editor that drive it through whole interactions, proved from
 * the methods' contracts alone: a forward and a backward drag, undo after two
 * shapes, clear after one, and release followed by undo.
 */
module Scenarios {
  import opened Options
  import opened Shapes
  import opened Raster
  import opened GraphEditor

  const Red := Rgb(255, 0, 0)

  /** Draws one filled red rectangle, stroke 2, by dragging from `from` to `to`. */
  method DrawRedRectangle(e: Editor, from: Point, to: Point)
    requires e.Valid()
    modifies e, e.image
    ensures e.Valid() && e.Mode() == Idle
    ensures e.shapes == old(e.shapes) + [DrawnShape(
      CreateShape(Some(RectangleTool), from.x, from.y, to.x - from.x, to.y - from.y), Red, true, 2.0)]
  {
    e.SetCurrentShape(RectangleTool);
    e.ChangeColor(Some(Red));
    e.SetFill(true);
    e.SetStrokeWidth(2.0);
    e.MousePressed(from);
    e.MouseDragged(to);
    e.MouseReleased();
  }

  /** Dragging from (10,10) to (50,40) records one rectangle at (10,10) of size 40x30. */
  method ForwardDrag() returns (history: seq<DrawnShape>)
    ensures |history| == 1
    ensures history[0] == DrawnShape(Rect(10, 10, 40, 30), Red, true, 2.0)
  {
    var e := new Editor();
    DrawRedRectangle(e, Point(10, 10), Point(50, 40));
    history := e.shapes;
  }

  /** Dragging the other way, from (50,40) to (10,10), records the same rectangle. */
  method BackwardDrag() returns (history: seq<DrawnShape>)
    ensures |history| == 1
    ensures history[0] == DrawnShape(Rect(10, 10, 40, 30), Red, true, 2.0)
  {
    var e := new Editor();
    DrawRedRectangle(e, Point(50, 40), Point(10, 10));
    history := e.shapes;
  }

  /** Two shapes then one undo: one entry left, the first shape, and the image is the
      white background showing only that shape. */
  method DrawTwoThenUndo() returns (history: seq<DrawnShape>, fill: Option<Color>, onImage: seq<DrawnShape>)
    ensures history == [DrawnShape(Rect(10, 10, 40, 30), Red, true, 2.0)]
    ensures fill == Some(White) && onImage == history
  {
    var e := new Editor();
    DrawRedRectangle(e, Point(10, 10), Point(50, 40));
    DrawRedRectangle(e, Point(100, 100), Point(120, 130));
    e.UndoLastShape();
    history := e.shapes;
    fill := e.image.fill;
    onImage := CommittedAll(e.image.painted);
  }

  /** One shape then clear: the history is empty and the image is only the background. */
  method DrawThenClear() returns (history: seq<DrawnShape>, fill: Option<Color>, painted: seq<PaintOp>)
    ensures history == [] && painted == [] && fill == Some(White)
  {
    var e := new Editor();
    DrawRedRectangle(e, Point(10, 10), Point(50, 40));
    e.ClearCanvas();
    history := e.shapes;
    fill := e.image.fill;
    painted := e.image.painted;
  }

  /** Releasing a shape being drawn and then undoing restores the history and the image. */
  method ReleaseThenUndo(e: Editor)
    requires e.Valid() && e.Mode() == Dragging
    modifies e, e.image
    ensures e.Valid() && e.Mode() == Idle
    ensures e.shapes == old(e.shapes)
    ensures e.image.painted == old(e.image.painted)
  {
    e.MouseReleased();
    e.UndoLastShape();
  }
}
