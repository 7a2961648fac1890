/**
 * Shape values of the graph editor: the selected tool, the normalised geometry
 * that `createShape` builds from an anchor and signed deltas, and the
 * `DrawnShape` record that bundles a geometry with its paint attributes.
 */
module Shapes {
  import opened Options

  /** The kind of `java.awt.Shape` held in `currentShape`: the two toolbar
      tools, or any other shape, for which `createShape` falls back to a rectangle. */
  datatype Tool = RectangleTool | EllipseTool | OtherTool

  /** A pointer position in canvas coordinates. */
  datatype Point = Point(x: int, y: int)

  /** A drawing colour; the editor only copies colours, never computes with them. */
  datatype Color = Rgb(red: int, green: int, blue: int)

  const Black := Rgb(0, 0, 0)
  const White := Rgb(255, 255, 255)

  /** A shape's outline: its top-left corner and its extents. */
  datatype Geometry =
    | Rect(x: int, y: int, w: int, h: int)
    | Ellipse(x: int, y: int, w: int, h: int)

  /** A finished or in-progress shape together with the attributes it is painted with. */
  datatype DrawnShape = DrawnShape(geometry: Geometry, color: Color, filled: bool, strokeWidth: real)

  function Min(a: int, b: int): int { if a <= b then a else b }
  function Max(a: int, b: int): int { if a <= b then b else a }

  /** The extents of a geometry are non-negative. */
  predicate Normalized(g: Geometry) { g.w >= 0 && g.h >= 0 }

  /** The box of a geometry, without its kind. */
  function Box(g: Geometry): (int, int, int, int) { (g.x, g.y, g.w, g.h) }

  /**
   * `createShape`: the anchor (x, y) plus signed deltas becomes a geometry
   * whose origin is the top-left corner and whose extents are non-negative.
   * An ellipse tool gives an ellipse; every other tool, and no tool, a rectangle.
   */
  function CreateShape(tool: Option<Tool>, x: int, y: int, width: int, height: int): (g: Geometry)
    ensures Normalized(g)
    ensures g.x == Min(x, x + width) && g.x + g.w == Max(x, x + width)
    ensures g.y == Min(y, y + height) && g.y + g.h == Max(y, y + height)
    ensures width >= 0 ==> g.x == x && g.w == width
    ensures height >= 0 ==> g.y == y && g.h == height
    ensures g.Ellipse? <==> tool == Some(EllipseTool)
  {
    var x1 := if width < 0 then x + width else x;
    var w := if width < 0 then -width else width;
    var y1 := if height < 0 then y + height else y;
    var h := if height < 0 then -height else height;
    match tool
    case Some(RectangleTool) => Rect(x1, y1, w, h)
    case Some(EllipseTool) => Ellipse(x1, y1, w, h)
    case _ => Rect(x1, y1, w, h)
  }

  /** The shape covers exactly the points between the anchor and the anchor plus the delta, on each axis. */
  lemma CoveredInterval(tool: Option<Tool>, x: int, y: int, width: int, height: int, px: int, py: int)
    ensures var g := CreateShape(tool, x, y, width, height);
      (g.x <= px <= g.x + g.w <==> (x <= px <= x + width || x + width <= px <= x)) &&
      (g.y <= py <= g.y + g.h <==> (y <= py <= y + height || y + height <= py <= y))
  {
  }

  /** The tool decides the kind of the result and nothing else: the box is the same for every tool. */
  lemma SameBoxForEveryTool(t1: Option<Tool>, t2: Option<Tool>, x: int, y: int, width: int, height: int)
    ensures Box(CreateShape(t1, x, y, width, height)) == Box(CreateShape(t2, x, y, width, height))
    ensures CreateShape(t1, x, y, width, height).Rect? <==> t1 != Some(EllipseTool)
  {
  }

  /**
   * Dragging from a to b and dragging from b to a give the same geometry,
   * the deltas being the current point minus the anchor.
   */
  lemma DragDirectionIrrelevant(tool: Option<Tool>, a: Point, b: Point)
    ensures CreateShape(tool, a.x, a.y, b.x - a.x, b.y - a.y) == CreateShape(tool, b.x, b.y, a.x - b.x, a.y - b.y)
  {
  }
}
