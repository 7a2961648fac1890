/**
 * The persistent drawing image and the graphics context that paints into it.
 * Pixels are abstracted away: the image is the colour of its last background
 * fill followed by the paint operations issued since that fill, in order.
 * A fill covers the whole image, so everything painted before it is gone.
 */
module Raster {
  import opened Options
  import opened Shapes

  /** One shape painted into the image: `g2d.fill` for a filled shape,
      `g2d.draw` for an outline, each after setting the colour and the stroke. */
  datatype PaintOp =
    | FillShape(geometry: Geometry, color: Color, strokeWidth: real)
    | DrawOutline(geometry: Geometry, color: Color, strokeWidth: real)

  /** The paint operation that commits a shape: filled shapes are filled, others outlined. */
  function Render(s: DrawnShape): (op: PaintOp)
    ensures op.FillShape? <==> s.filled
    ensures op.geometry == s.geometry && op.color == s.color && op.strokeWidth == s.strokeWidth
  {
    if s.filled then FillShape(s.geometry, s.color, s.strokeWidth)
    else DrawOutline(s.geometry, s.color, s.strokeWidth)
  }

  /** The shape a paint operation commits. */
  function Committed(op: PaintOp): DrawnShape
  {
    DrawnShape(op.geometry, op.color, op.FillShape?, op.strokeWidth)
  }

  /** Render and Committed are inverse to each other: the paint operation records
      every attribute of the shape, so Committed recovers it. */
  lemma RenderCommittedInverse(s: DrawnShape, op: PaintOp)
    ensures Committed(Render(s)) == s
    ensures Render(Committed(op)) == op
  {
  }

  /** The paint operations that replay a history, in order. */
  function RenderAll(h: seq<DrawnShape>): (ops: seq<PaintOp>)
    ensures |ops| == |h|
    ensures forall i :: 0 <= i < |h| ==> ops[i] == Render(h[i])
  {
    if h == [] then [] else [Render(h[0])] + RenderAll(h[1..])
  }

  /** The shapes a sequence of paint operations commits, in order. */
  function CommittedAll(ops: seq<PaintOp>): (h: seq<DrawnShape>)
  {
    if ops == [] then [] else [Committed(ops[0])] + CommittedAll(ops[1..])
  }

  /** Committing one more shape extends the replay by its paint operation. */
  lemma RenderAllAppend(h: seq<DrawnShape>, s: DrawnShape)
    ensures RenderAll(h + [s]) == RenderAll(h) + [Render(s)]
  {
  }

  /** The shapes recovered from the paint operations of a history are that history. */
  lemma {:induction false} CommittedAllRenderAll(h: seq<DrawnShape>)
    ensures CommittedAll(RenderAll(h)) == h
  {
    if h != [] {
      CommittedAllRenderAll(h[1..]);
      RenderCommittedInverse(h[0], Render(h[0]));
    }
  }

  /** The persistent image (`image`) together with its graphics context (`g2d`). */
  class Image {
    /** The colour of the last background fill; None for a fresh, transparent image. */
    var fill: Option<Color>
    /** The paint operations issued since the last background fill, oldest first. */
    var painted: seq<PaintOp>

    /** A new, transparent image with nothing painted on it. */
    constructor ()
      ensures fill == None && painted == []
    {
      fill := None;
      painted := [];
    }

    /** `fillRect` over the whole image in colour c: every earlier paint is covered. */
    method FillBackground(c: Color)
      modifies this
      ensures fill == Some(c) && painted == []
    {
      fill := Some(c);
      painted := [];
    }

    /** Sets the shape's colour and stroke and fills or draws it into the image. */
    method Paint(s: DrawnShape)
      modifies this
      ensures fill == old(fill)
      ensures painted == old(painted) + [Render(s)]
      ensures CommittedAll(painted) == CommittedAll(old(painted)) + [s]
    {
      CommittedAllAppend(painted, Render(s));
      RenderCommittedInverse(s, Render(s));
      painted := painted + [Render(s)];
    }
  }

  /** Recovering shapes distributes over appending one operation. */
  lemma {:induction false} CommittedAllAppend(ops: seq<PaintOp>, op: PaintOp)
    ensures CommittedAll(ops + [op]) == CommittedAll(ops) + [Committed(op)]
  {
    if ops != [] {
      assert (ops + [op])[1..] == ops[1..] + [op];
      CommittedAllAppend(ops[1..], op);
    }
  }
}
