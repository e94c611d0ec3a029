/**
 * The constraint clamper of `ResizePlugin.resizing`: each axis is raised to its
 * minimum (30 unless configured) and then, only when a maximum is configured,
 * lowered to that maximum. The two axes are clamped independently.
 */
module Clamp {
  import opened Wrappers
  import opened Geometry

  /** `resizeConstraints`: every bound may be absent. */
  datatype Constraints = Constraints(
    minWidth: Option<real>, maxWidth: Option<real>,
    minHeight: Option<real>, maxHeight: Option<real>)

  const NoConstraints := Constraints(None, None, None, None)

  /** The floor used for an absent minimum (`?? 30`). */
  const DefaultMinimum: real := 30.0

  /** The minimum in force: the configured one, or 30 when none is configured. */
  function Floor(min: Option<real>): (f: real)
    ensures min.Some? ==> f == min.value
    ensures min.None? ==> f == 30.0
  {
    min.GetOr(DefaultMinimum)
  }

  /** One axis: minimum first, then the maximum if one is configured. */
  function ClampAxis(v: real, min: Option<real>, max: Option<real>): (r: real)
    ensures max.Some? ==> r <= max.value
    ensures max.None? || Floor(min) <= max.value ==> Floor(min) <= r
    ensures Floor(min) <= v && (max.None? || v <= max.value) ==> r == v
    ensures v < Floor(min) && (max.None? || Floor(min) <= max.value) ==> r == Floor(min)
    ensures max.Some? && v > max.value ==> r == max.value
    ensures max.Some? && max.value < Floor(min) ==> r == max.value
    ensures r == v || r == Floor(min) || (max.Some? && r == max.value)
  {
    var raised := if v < Floor(min) then Floor(min) else v;
    if max.Some? && raised > max.value then max.value else raised
  }

  /** Both axes, each against its own bounds. */
  function ClampSize(c: Size, k: Constraints): (r: Size)
    ensures k.maxWidth.Some? ==> r.width <= k.maxWidth.value
    ensures k.maxHeight.Some? ==> r.height <= k.maxHeight.value
    ensures k.maxWidth.None? || Floor(k.minWidth) <= k.maxWidth.value ==> Floor(k.minWidth) <= r.width
    ensures k.maxHeight.None? || Floor(k.minHeight) <= k.maxHeight.value ==> Floor(k.minHeight) <= r.height
  {
    Size(ClampAxis(c.width, k.minWidth, k.maxWidth), ClampAxis(c.height, k.minHeight, k.maxHeight))
  }

  /** With no constraints configured, both axes are floored at exactly 30 and nothing more. */
  lemma UnconstrainedFloorIsThirty(c: Size)
    ensures ClampSize(c, NoConstraints).width == if c.width < 30.0 then 30.0 else c.width
    ensures ClampSize(c, NoConstraints).height == if c.height < 30.0 then 30.0 else c.height
  {
  }

  /** The width result never depends on the candidate height, nor the height result on the width. */
  lemma AxesIndependent(w1: real, h1: real, w2: real, h2: real, k: Constraints)
    ensures w1 == w2 ==> ClampSize(Size(w1, h1), k).width == ClampSize(Size(w2, h2), k).width
    ensures h1 == h2 ==> ClampSize(Size(w1, h1), k).height == ClampSize(Size(w2, h2), k).height
  {
  }

  /** Clamping keeps the order of candidates along an axis. */
  lemma ClampAxisMonotone(v1: real, v2: real, min: Option<real>, max: Option<real>)
    requires v1 <= v2
    ensures ClampAxis(v1, min, max) <= ClampAxis(v2, min, max)
  {
  }

  /** Clamping an already clamped value changes nothing, even when min exceeds max. */
  lemma ClampAxisIdempotent(v: real, min: Option<real>, max: Option<real>)
    ensures ClampAxis(ClampAxis(v, min, max), min, max) == ClampAxis(v, min, max)
  {
  }
}
