# Graph editor: shapes, history and image, in Dafny

This project models the editing core of the Swing shape editor `graph`
(`src/graph.java`): how a click-drag becomes a normalised rectangle or
ellipse, the shape history that undo and clear work on, the mouse
interaction (idle, or dragging an active shape), and the persistent image the
shapes are painted into. All toolkit work is abstracted away.

- `Shapes` (shapes.dfy) holds the values. `Tool`, `Geometry = Rect | Ellipse`
  and `DrawnShape` are here. `CreateShape` is the pure function behind
  `createShape`.
- `Raster` (raster.dfy) holds the persistent image and its graphics context,
  as class `Image`. Pixels are abstracted: the image is the colour of its last
  background fill, then the paint operations issued since that fill, in order.
  A paint operation is `FillShape` (`g2d.fill`) or `DrawOutline` (`g2d.draw`),
  chosen by the shape's fill flag.
- `GraphEditor` (editor.dfy) is class `Editor`. It has the fields of `graph`
  that the handlers update: the tool, colour, fill, stroke, `shapes`,
  `activeShape` and `startPoint`. Its methods are the toolbar commands and the
  three mouse handlers. Its invariant `Valid()` says the image is the
  background followed by exactly the history, rendered in order. Every
  operation preserves it. `ImageShowsHistory` reads it back as "the image
  shows the history".
- `Scenarios` (scenarios.dfy) are clients that drive an editor through whole
  interactions and prove the outcome from the method contracts alone.
- `Options` (options.dfy) is `Option`, standing in for a nullable reference.

Pointer coordinates and the colour chooser's answer are method parameters.
Coordinates are unbounded integers.

Behaviour of the code worth noting, which the model keeps:

- Pressing during a drag starts a new drag and discards the old active shape.
  There is no Idle-only guard (src/graph.java:290-301).
- Clear and undo leave an in-progress drag alone (src/graph.java:181-196).
- Release does not reset `startPoint` (src/graph.java:304-323).
- The stroke width is 2.0 at start and otherwise one of 1.0, 2.0, 3.0, 5.0 and 8.0,
  the items of the non-editable stroke selector (src/graph.java:28, 120-122).
  `SetStrokeWidth` requires one of them and `Valid()` keeps it so.
- A drag cannot be aborted: only a release ends it (src/graph.java:304-323).

## Model

| member | source | states |
|---|---|---|
| Shapes.CreateShape | src/graph.java:224-249 | extents are non-negative; origin is min(x, x+width) / min(y, y+height) and origin plus extent is max(x, x+width) / max(y, y+height); non-negative deltas pass through unchanged; the result is an Ellipse exactly when the tool is the ellipse tool, otherwise (rectangle, other shape, no tool) a Rect |
| Shapes.CoveredInterval | src/graph.java:226-239 | on each axis, a point lies in the normalised extent iff it lies between the anchor and the anchor plus the signed delta |
| Shapes.SameBoxForEveryTool | src/graph.java:241-248 | the tool only picks the kind: the box is identical for every tool, and the result is a Rect exactly when the tool is not the ellipse tool (fallback included) |
| Shapes.DragDirectionIrrelevant | src/graph.java:231-239 | with deltas taken as current point minus anchor, dragging from A to B and from B to A give identical geometry |
| Raster.Render | src/graph.java:310-317 | committing a shape fills it iff it is filled, otherwise outlines it, with its geometry, colour and stroke width |
| Raster.RenderCommittedInverse | src/graph.java:208-215 | the paint operation of a shape and the shape it commits are inverse to each other: the paint operation records every attribute of the shape, so `Committed` recovers it (a filled shape's stroke width leaves no trace in the pixels, which are not modelled) |
| Raster.RenderAll | src/graph.java:207-216 | replaying a history issues one paint operation per shape, the i-th being the i-th shape's |
| Raster.RenderAllAppend | src/graph.java:307-317 | committing one more shape incrementally gives the same operations as replaying the history extended by it |
| Raster.CommittedAllRenderAll | src/graph.java:201-216 | the shapes recovered from a replay of a history are exactly that history, in order |
| Raster.Image.constructor | src/graph.java:90 | a new image is transparent and has nothing painted |
| Raster.Image.FillBackground | src/graph.java:193-194 | a full background fill sets the fill colour and discards everything painted before |
| Raster.Image.Paint | src/graph.java:310-317 | painting appends the shape's operation, keeps the fill, and the image then shows the old shapes followed by this one |
| GraphEditor.Editor.constructor | src/graph.java:24-35 | default settings (no tool, black, unfilled, stroke 2.0), empty history, idle, and the image filled with the white background (lines 89-96) |
| GraphEditor.Editor.SetCurrentShape | src/graph.java:164-166 | selects the tool; everything else is unchanged |
| GraphEditor.Editor.ChangeColor | src/graph.java:171-176 | a picked colour becomes current; a cancelled pick (None) leaves the colour unchanged |
| GraphEditor.Editor.SetFill | src/graph.java:116-117 | the fill check box sets the fill flag only |
| GraphEditor.Editor.SetStrokeWidth | src/graph.java:120-122 | the stroke selector sets the stroke width, always one of the five widths it offers, and nothing else |
| GraphEditor.Editor.RedrawShapes | src/graph.java:201-219 | after refilling the background and replaying the history in a loop, the image is the background followed by exactly the history |
| GraphEditor.Editor.UndoLastShape | src/graph.java:181-186 | on an empty history nothing changes; otherwise exactly the last entry is removed, the prefix is kept, and the image shows the remaining history; settings and drag state unchanged |
| GraphEditor.Editor.ClearCanvas | src/graph.java:191-196 | the history is empty and the image is only the background; settings and drag state unchanged |
| GraphEditor.Editor.MousePressed | src/graph.java:290-301 | with no tool: no change; with a tool: dragging starts at the press point with a zero-extent shape of the tool's kind in the current colour, fill and stroke; history untouched |
| GraphEditor.Editor.MouseDragged | src/graph.java:331-339 | while dragging, only the active shape's geometry changes, to the normalised box from the anchor to the pointer; history, image, settings and paint attributes unchanged; idle: no change |
| GraphEditor.Editor.MouseReleased | src/graph.java:304-323 | an active shape is appended at the end of the history, painted into the image and cleared; with no active shape nothing changes; afterwards the editor is idle |
| GraphEditor.ImageShowsHistory | src/graph.java:94-95 | in every valid state (the invariant every operation keeps) the image is the background followed by exactly the history, in order |
| Scenarios.DrawRedRectangle | src/graph.java:290-323 | press, drag and release with the rectangle tool append one shape whose geometry is CreateShape from the press point to the last drag point (release reads no coordinates) |
| Scenarios.ForwardDrag | src/graph.java:331-336 | dragging from (10,10) to (50,40) records one filled red Rect(10,10,40,30) |
| Scenarios.BackwardDrag | src/graph.java:231-239 | dragging from (50,40) to (10,10) records the same Rect(10,10,40,30) |
| Scenarios.DrawTwoThenUndo | src/graph.java:181-186 | two shapes then undo leave exactly the first shape (geometry, colour, fill, stroke) in the history, and the image is the white background showing only it |
| Scenarios.DrawThenClear | src/graph.java:191-196 | one shape then clear leaves an empty history and an image with only the white background |
| Scenarios.ReleaseThenUndo | src/graph.java:305-307 | release followed by undo restores the prior history and the prior image |

## Left out

- Window, toolbar, status bar, layout, button and icon creation, look-and-feel and the `main` launch (src/graph.java:40-84, 101-159, 362-372). These are UI wiring; only the toolbar actions themselves are modelled.
- The `JColorChooser` dialog (src/graph.java:172). It is a foreign modal call. Its answer is the `Option<Color>` parameter of `ChangeColor`.
- Pixel rendering: antialiasing hints, `BasicStroke`, the pixels `g2d.fill`/`g2d.draw` produce, `drawImage`, and the live overlay of the active shape in `paintComponent` (src/graph.java:256-277). A paint is recorded as an abstract `PaintOp`. `canvas.repaint()` is a screen refresh with no state to model.
- Clear and redraw fill `canvas.getWidth()`×`getHeight()`, but the image is a fixed 800×600 (src/graph.java:90, 194, 204). The model treats every background fill as covering the whole image. How much of the image a fill actually covers is not modelled.
- `Color` and the float `strokeWidth` are opaque values (an RGB triple and a `real`). They are only copied. Alpha and float rounding are not modelled.
- `Rectangle2D.Double`/`Ellipse2D.Double` store doubles. Every input is an `int`, so coordinates are `int`.
- Shapes.CreateShape: does not model Java's 32-bit wrap-around in `x + width`, `y + height` and `-width` (src/graph.java:232-238), because coordinates are unbounded integers. Near the `int` limits the Java result can differ.
- GraphEditor.Editor.MouseDragged: does not model the 32-bit wrap-around in `e.getX() - startPoint.x` (src/graph.java:333-334), for the same reason.
- `DrawnShape` (src/graph.java:345-357) is a value, not an object. Its only in-place update, `activeShape.shape = …` during a drag, is modelled as replacing the active value. No alias survives: the object joins the history only on release, and `activeShape` is set to null at that moment.
