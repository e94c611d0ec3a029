/**
 * The drag session of `ResizePlugin` and the size a pointer move produces:
 * start size plus pointer travel, with the height re-derived from the origin
 * aspect ratio while Alt is held, then clamped axis by axis.
 */
module Drag {
  import opened Wrappers
  import opened Geometry
  import opened Clamp

  /** `startResizePosition`: the pointer and the target's client size at mousedown. */
  datatype Session = Session(left: real, top: real, width: real, height: real)

  /**
   * The unclamped size for a pointer at (x, y). Alt divides by the origin width,
   * so that width must be non-zero whenever Alt is held.
   */
  function CandidateSize(s: Session, x: real, y: real, alt: bool, origin: Size): (c: Size)
    requires alt ==> origin.width != 0.0
    ensures c.width - s.width == x - s.left
    ensures !alt ==> c.height - s.height == y - s.top
    ensures alt ==> c.height * origin.width == origin.height * c.width
  {
    var width := s.width + (x - s.left);
    Size(width, if alt then (origin.height / origin.width) * width else s.height + (y - s.top))
  }

  /** The size a pointer move writes to the target. */
  function DragSize(s: Session, x: real, y: real, alt: bool, origin: Size, k: Constraints): (r: Size)
    requires alt ==> origin.width != 0.0
    ensures k.maxWidth.Some? ==> r.width <= k.maxWidth.value
    ensures k.maxHeight.Some? ==> r.height <= k.maxHeight.value
    ensures k.maxWidth.None? || Floor(k.minWidth) <= k.maxWidth.value ==> Floor(k.minWidth) <= r.width
    ensures k.maxHeight.None? || Floor(k.minHeight) <= k.maxHeight.value ==> Floor(k.minHeight) <= r.height
  {
    ClampSize(CandidateSize(s, x, y, alt, origin), k)
  }

  /** Under Alt the vertical pointer position plays no part. */
  lemma AltIgnoresVerticalMotion(s: Session, x: real, y1: real, y2: real, origin: Size, k: Constraints)
    requires origin.width != 0.0
    ensures DragSize(s, x, y1, true, origin, k) == DragSize(s, x, y2, true, origin, k)
  {
  }

  /** Under Alt, when neither clamp bites, the written size has the origin's aspect ratio. */
  lemma AltKeepsOriginRatioWhenUnclamped(s: Session, x: real, y: real, origin: Size, k: Constraints)
    requires origin.width != 0.0
    requires var c := CandidateSize(s, x, y, true, origin);
      ClampAxis(c.width, k.minWidth, k.maxWidth) == c.width &&
      ClampAxis(c.height, k.minHeight, k.maxHeight) == c.height
    ensures var r := DragSize(s, x, y, true, origin, k);
      r.height * origin.width == origin.height * r.width
  {
  }

  /**
   * Clamping after the Alt re-derivation can break the ratio: origin 200x100, a drag
   * that shrinks the width to 10 yields 30x30 rather than a 2:1 box.
   */
  lemma AltRatioLostWhenClamped()
    ensures var r := DragSize(Session(0.0, 0.0, 200.0, 100.0), -190.0, 0.0, true, Size(200.0, 100.0), NoConstraints);
      r == Size(30.0, 30.0) && r.height * 200.0 != 100.0 * r.width
  {
  }

  /** Dragging 50 to the right from a 200x100 start, no Alt, no constraints: 250x100. */
  lemma WidenByFifty()
    ensures DragSize(Session(0.0, 0.0, 200.0, 100.0), 50.0, 0.0, false, Size(200.0, 100.0), NoConstraints)
      == Size(250.0, 100.0)
  {
  }

  /** With minWidth 100 and maxWidth 300, a candidate width of 50 is raised to 100. */
  lemma NarrowBelowMinimum()
    ensures DragSize(Session(0.0, 0.0, 200.0, 100.0), -150.0, 0.0, false, Size(200.0, 100.0),
                     Constraints(Some(100.0), Some(300.0), None, None)).width == 100.0
  {
  }
}
