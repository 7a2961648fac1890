/**
 * The editor state of the `graph` window with the Swing and pixel work removed:
 * the tool and paint settings, the shape history behind undo, the shape being
 * dragged, and the persistent image. The toolbar and the mouse listeners are
 * the methods of `Editor`; pointer coordinates and the colour chooser's answer
 * arrive as parameters.
 */
module GraphEditor {
  import opened Options
  import opened Shapes
  import opened Raster

  /** The colour the canvas is filled with, at start and on every clear or redraw. */
  const Background := White

  /** The widths the stroke selector offers; it is not editable, so no other width can be chosen. */
  const StrokeWidths: set<real> := {1.0, 2.0, 3.0, 5.0, 8.0}

  /** Idle between drags; Dragging while a shape is being drawn. */
  datatype Mode = Idle | Dragging

  class Editor {
    /** The selected tool (`currentShape`); None until a tool button is pressed. */
    var currentShape: Option<Tool>
    var currentColor: Color
    var fillShape: bool
    var strokeWidth: real
    /** The shapes drawn so far, oldest first: the history that undo works on. */
    var shapes: seq<DrawnShape>
    /** The shape being dragged, not yet part of the history. */
    var activeShape: Option<DrawnShape>
    /** Where the current drag started. */
    var startPoint: Option<Point>
    /** The persistent image with its graphics context. */
    const image: Image

    /** The image shows the background and then exactly the history, in order;
        a drag always has an anchor; every shape is normalised; the stroke width is one the selector offers. */
    ghost predicate Valid()
      reads this, image
    {
      && image.fill == Some(Background)
      && strokeWidth in StrokeWidths
      && image.painted == RenderAll(shapes)
      && (activeShape.Some? ==> startPoint.Some? && Normalized(activeShape.value.geometry))
      && (forall i :: 0 <= i < |shapes| ==> Normalized(shapes[i].geometry))
    }

    function Mode(): Mode
      reads this
    {
      if activeShape.Some? then Dragging else Idle
    }

    /** The tool and paint settings, which only the toolbar changes. */
    function Settings(): (Option<Tool>, Color, bool, real)
      reads this
    {
      (currentShape, currentColor, fillShape, strokeWidth)
    }

    /** The state of the mouse interaction. */
    function Interaction(): (Option<DrawnShape>, Option<Point>)
      reads this
    {
      (activeShape, startPoint)
    }

    /** Opens the editor: default settings, empty history, image filled with the background. */
    constructor ()
      ensures Valid() && fresh(image)
      ensures currentShape == None && currentColor == Black && !fillShape && strokeWidth == 2.0
      ensures shapes == [] && activeShape == None && startPoint == None
      ensures Mode() == Idle
    {
      currentShape := None;
      currentColor := Black;
      fillShape := false;
      strokeWidth := 2.0;
      shapes := [];
      activeShape := None;
      startPoint := None;
      image := new Image();
      new;
      image.FillBackground(Background);
    }

    /** A tool button selects the kind of shape to draw. */
    method SetCurrentShape(tool: Tool)
      requires Valid()
      modifies this
      ensures Valid()
      ensures currentShape == Some(tool)
      ensures (currentColor, fillShape, strokeWidth) == old((currentColor, fillShape, strokeWidth))
      ensures shapes == old(shapes) && Interaction() == old(Interaction())
    {
      currentShape := Some(tool);
    }

    /** The colour chooser's answer: a pick replaces the colour, a cancelled pick (None) keeps it. */
    method ChangeColor(picked: Option<Color>)
      requires Valid()
      modifies this
      ensures Valid()
      ensures currentColor == (if picked.Some? then picked.value else old(currentColor))
      ensures (currentShape, fillShape, strokeWidth) == old((currentShape, fillShape, strokeWidth))
      ensures shapes == old(shapes) && Interaction() == old(Interaction())
    {
      if picked.Some? {
        currentColor := picked.value;
      }
    }

    /** The fill check box. */
    method SetFill(filled: bool)
      requires Valid()
      modifies this
      ensures Valid()
      ensures fillShape == filled
      ensures (currentShape, currentColor, strokeWidth) == old((currentShape, currentColor, strokeWidth))
      ensures shapes == old(shapes) && Interaction() == old(Interaction())
    {
      fillShape := filled;
    }

    /** The stroke width selector. */
    method SetStrokeWidth(width: real)
      requires Valid()
      requires width in StrokeWidths
      modifies this
      ensures Valid()
      ensures strokeWidth == width
      ensures (currentShape, currentColor, fillShape) == old((currentShape, currentColor, fillShape))
      ensures shapes == old(shapes) && Interaction() == old(Interaction())
    {
      strokeWidth := width;
    }

    /** Fills the image with the background and paints the whole history again, oldest first. */
    method RedrawShapes()
      modifies image
      ensures image.fill == Some(Background)
      ensures image.painted == RenderAll(shapes)
      ensures CommittedAll(image.painted) == shapes
    {
      image.FillBackground(Background);
      for i := 0 to |shapes|
        invariant image.fill == Some(Background)
        invariant image.painted == RenderAll(shapes[..i])
      {
        RenderAllAppend(shapes[..i], shapes[i]);
        assert shapes[..i + 1] == shapes[..i] + [shapes[i]];
        image.Paint(shapes[i]);
      }
      assert shapes[..|shapes|] == shapes;
      CommittedAllRenderAll(shapes);
    }

    /** Undo: on an empty history nothing changes; otherwise the last shape is
        removed and the image is rebuilt from the remaining history. */
    method UndoLastShape()
      requires Valid()
      modifies this, image
      ensures Valid()
      ensures old(shapes) == [] ==> shapes == [] && image.painted == old(image.painted)
      ensures old(shapes) != [] ==> shapes == old(shapes)[..|old(shapes)| - 1]
      ensures old(shapes) != [] ==> old(shapes) == shapes + [old(shapes)[|old(shapes)| - 1]]
      ensures CommittedAll(image.painted) == shapes
      ensures Settings() == old(Settings()) && Interaction() == old(Interaction())
    {
      if shapes != [] {
        shapes := shapes[..|shapes| - 1];
        RedrawShapes();
      } else {
        CommittedAllRenderAll(shapes);
      }
    }

    /** Clear: the history is emptied and the image is filled with the background. */
    method ClearCanvas()
      requires Valid()
      modifies this, image
      ensures Valid()
      ensures shapes == [] && image.painted == [] && image.fill == Some(Background)
      ensures Settings() == old(Settings()) && Interaction() == old(Interaction())
    {
      shapes := [];
      image.FillBackground(Background);
    }

    /** Mouse press: with a tool selected, a drag starts at p with a zero-extent
        shape in the current colour, fill and stroke; with no tool, nothing happens. */
    method MousePressed(p: Point)
      requires Valid()
      modifies this
      ensures Valid()
      ensures old(currentShape) == None ==> Interaction() == old(Interaction())
      ensures old(currentShape) != None ==>
        && Mode() == Dragging
        && startPoint == Some(p)
        && activeShape.value.geometry.x == p.x && activeShape.value.geometry.y == p.y
        && activeShape.value.geometry.w == 0 && activeShape.value.geometry.h == 0
        && (activeShape.value.geometry.Ellipse? <==> currentShape == Some(EllipseTool))
        && activeShape.value.color == currentColor
        && activeShape.value.filled == fillShape
        && activeShape.value.strokeWidth == strokeWidth
      ensures Settings() == old(Settings()) && shapes == old(shapes)
    {
      if currentShape != None {
        startPoint := Some(p);
        activeShape := Some(DrawnShape(
          CreateShape(currentShape, p.x, p.y, 0, 0),
          currentColor,
          fillShape,
          strokeWidth));
      }
    }

    /** Mouse drag: while a shape is being drawn, its geometry becomes the box from
        the anchor to p; its paint attributes, the history and the image stay as they are. */
    method MouseDragged(p: Point)
      requires Valid()
      modifies this
      ensures Valid()
      ensures old(activeShape) == None ==> Interaction() == old(Interaction())
      ensures old(activeShape) != None ==>
        && startPoint == old(startPoint)
        && activeShape.Some?
        && activeShape.value.color == old(activeShape).value.color
        && activeShape.value.filled == old(activeShape).value.filled
        && activeShape.value.strokeWidth == old(activeShape).value.strokeWidth
        && var anchor := old(startPoint).value;
           activeShape.value.geometry == CreateShape(currentShape, anchor.x, anchor.y, p.x - anchor.x, p.y - anchor.y)
      ensures Mode() == old(Mode())
      ensures Settings() == old(Settings()) && shapes == old(shapes)
    {
      if activeShape != None && startPoint != None {
        var width := p.x - startPoint.value.x;
        var height := p.y - startPoint.value.y;
        activeShape := Some(activeShape.value.(
          geometry := CreateShape(currentShape, startPoint.value.x, startPoint.value.y, width, height)));
      }
    }

    /** Mouse release: a shape being drawn is appended to the history, painted into
        the image and no longer active; with no shape being drawn, nothing happens. */
    method MouseReleased()
      requires Valid()
      modifies this, image
      ensures Valid()
      ensures Mode() == Idle
      ensures old(activeShape) == None ==> shapes == old(shapes) && image.painted == old(image.painted)
      ensures old(activeShape) != None ==> shapes == old(shapes) + [old(activeShape).value]
      ensures CommittedAll(image.painted) == shapes
      ensures startPoint == old(startPoint) && Settings() == old(Settings())
    {
      if activeShape != None {
        RenderAllAppend(shapes, activeShape.value);
        shapes := shapes + [activeShape.value];
        image.Paint(activeShape.value);
        activeShape := None;
      }
      CommittedAllRenderAll(shapes);
    }
  }

  /** Whatever the editor's valid state, the image shows the background and then the history, in order. */
  lemma ImageShowsHistory(e: Editor)
    requires e.Valid()
    ensures e.image.fill == Some(Background)
    ensures CommittedAll(e.image.painted) == e.shapes
  {
    CommittedAllRenderAll(e.shapes);
  }
}
