/**
 * The geometry synchronizer of `ResizePlugin.positionResizerToTarget`: the overlay
 * is placed over the target, in coordinates relative to the editor surface.
 */
module Geometry {

  /** A width/height pair (`Size` in the source; also an element's client size). */
  datatype Size = Size(width: real, height: real)

  /** The part of a viewport bounding rectangle that positioning reads. */
  datatype Rect = Rect(left: real, top: real)

  /** The overlay's inline `left`, `top`, `width` and `height`, in pixels. */
  datatype Box = Box(left: real, top: real, width: real, height: real)

  /**
   * The layout the browser reports at the moment of positioning: the target's and the
   * editor's bounding rectangles and the target's client size.
   */
  datatype Layout = Layout(target: Rect, editor: Rect, client: Size)

  /**
   * Where the overlay goes: the target's offset from the editor's corner, with the
   * target's client size. Adding the editor's corner back gives the target's corner.
   */
  function Project(g: Layout): (b: Box)
    ensures g.editor.left + b.left == g.target.left
    ensures g.editor.top + b.top == g.target.top
    ensures b.width == g.client.width && b.height == g.client.height
  {
    Box(g.target.left - g.editor.left, g.target.top - g.editor.top, g.client.width, g.client.height)
  }

  /** The layout after the whole viewport content moves by (dx, dy). */
  function Scrolled(g: Layout, dx: real, dy: real): Layout
  {
    Layout(Rect(g.target.left + dx, g.target.top + dy),
           Rect(g.editor.left + dx, g.editor.top + dy),
           g.client)
  }

  /**
   * Scrolling the page moves target and editor together and leaves the overlay's
   * relative placement where it was; the projection depends on nothing else.
   */
  lemma ProjectIgnoresCommonScroll(g: Layout, dx: real, dy: real)
    ensures Project(Scrolled(g, dx, dy)) == Project(g)
  {
  }

  /**
   * Scrolling the editor's own content moves the target inside an editor that stays
   * put: the overlay moves by exactly the target's displacement and keeps its size.
   */
  lemma ProjectFollowsTarget(g: Layout, dx: real, dy: real)
    ensures var moved := Layout(Rect(g.target.left + dx, g.target.top + dy), g.editor, g.client);
      Project(moved) == Box(Project(g).left + dx, Project(g).top + dy, Project(g).width, Project(g).height)
  {
  }

  /** Two layouts project to the same box exactly when they agree on relative offset and size. */
  lemma ProjectDeterminedByOffsetAndSize(g1: Layout, g2: Layout)
    ensures Project(g1) == Project(g2) <==>
      g1.target.left - g1.editor.left == g2.target.left - g2.editor.left &&
      g1.target.top - g1.editor.top == g2.target.top - g2.editor.top &&
      g1.client == g2.client
  {
  }
}
