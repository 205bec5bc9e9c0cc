/**
 * The pointer-parallax numbers shared by both sequence components: a
 * pointer position normalised to [-1,1] in each axis, and the transform
 * `getParallaxStyle` derives from it (at most 8px of translation and 0.5
 * degrees of rotation per axis).
 */
module Parallax {

  datatype Pointer = Pointer(x: real, y: real)

  /** The position a pointer-leave resets to. */
  const Origin: Pointer := Pointer(0.0, 0.0)

  const MaxMovement: real := 8.0
  const RotationIntensity: real := 0.5

  /** `translate3d(translateX px, translateY px, 0) rotateX(rotateX deg) rotateY(rotateY deg)`. */
  datatype Transform = Transform(translateX: real, translateY: real, rotateX: real, rotateY: real)

  const Identity: Transform := Transform(0.0, 0.0, 0.0, 0.0)

  /**
   * `((offset / extent) - 0.5) * 2`: an offset across an extent mapped to
   * [-1,1], -1 at the near edge, 0 at the centre, 1 at the far edge.
   */
  function Normalize(offset: real, extent: real): (v: real)
    requires extent > 0.0
    ensures 0.0 <= offset <= extent <==> -1.0 <= v <= 1.0
    ensures (v + 1.0) / 2.0 * extent == offset
  {
    ((offset / extent) - 0.5) * 2.0
  }

  lemma NormalizeCentre(extent: real)
    requires extent > 0.0
    ensures Normalize(extent / 2.0, extent) == 0.0
  {
  }

  /** A larger offset never normalises to a smaller value. */
  lemma NormalizeMonotone(a: real, b: real, extent: real)
    requires extent > 0.0 && a <= b
    ensures Normalize(a, extent) <= Normalize(b, extent)
  {
    assert Normalize(b, extent) - Normalize(a, extent) == 2.0 * ((b - a) / extent);
    assert (b - a) / extent >= 0.0;
  }

  predicate InUnitSquare(p: Pointer) {
    -1.0 <= p.x <= 1.0 && -1.0 <= p.y <= 1.0
  }

  /**
   * `getParallaxStyle`: translation and rotation are linear in the
   * pointer, rotation about X follows the vertical axis with opposite sign.
   * The origin is the only position with no transform.
   */
  function ParallaxStyle(p: Pointer): (t: Transform)
    ensures t.translateX == 16.0 * t.rotateY && t.translateY == -16.0 * t.rotateX
    ensures t.translateX / MaxMovement == p.x && t.translateY / MaxMovement == p.y
    ensures t == Identity <==> p == Origin
  {
    Transform(p.x * MaxMovement, p.y * MaxMovement, -p.y * RotationIntensity, p.x * RotationIntensity)
  }

  /** For a pointer in [-1,1]^2 the surface moves by at most 8px and tilts by at most 0.5 degrees per axis. */
  lemma ParallaxBounded(p: Pointer)
    requires InUnitSquare(p)
    ensures var t := ParallaxStyle(p);
            -8.0 <= t.translateX <= 8.0 && -8.0 <= t.translateY <= 8.0 &&
            -0.5 <= t.rotateX <= 0.5 && -0.5 <= t.rotateY <= 0.5
  {
  }
}
