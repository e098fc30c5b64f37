/** Points of the animation frame and the uniform scale about a fixed point
    that every shape of the widget undergoes. */
module Geometry {

  /** A point of the frame; the third coordinate is kept because the frame's
      points are three-dimensional, although the scene only uses z = 0. */
  datatype Point = Point(x: real, y: real, z: real)

  /** The frame's origin (ORIGIN). */
  const Origin: Point := Point(0.0, 0.0, 0.0)

  function Abs(r: real): (a: real)
    ensures a >= 0.0 && (a == r || a == -r)
  {
    if r < 0.0 then -r else r
  }

  /** Where `p` lands when the plane is scaled by `f` about the fixed point `about`. */
  function ScaleAbout(p: Point, f: real, about: Point): (q: Point)
    ensures p == about ==> q == about
    ensures f == 1.0 ==> q == p
  {
    Point(about.x + f * (p.x - about.x),
          about.y + f * (p.y - about.y),
          about.z + f * (p.z - about.z))
  }

  /** Two scales about the same point are one scale by the product of the factors. */
  lemma ScaleAboutCompose(p: Point, f1: real, f2: real, about: Point)
    ensures ScaleAbout(ScaleAbout(p, f1, about), f2, about) == ScaleAbout(p, f1 * f2, about)
  {
    var q := ScaleAbout(p, f1, about);
    assert q.x - about.x == f1 * (p.x - about.x);
    assert q.y - about.y == f1 * (p.y - about.y);
    assert q.z - about.z == f1 * (p.z - about.z);
    MulAssoc(f1, f2, p.x - about.x);
    MulAssoc(f1, f2, p.y - about.y);
    MulAssoc(f1, f2, p.z - about.z);
  }

  /** Scaling an offset by f1 and then f2 is scaling it by f1 * f2. */
  lemma MulAssoc(f1: real, f2: real, d: real)
    ensures f2 * (f1 * d) == (f1 * f2) * d
  {
  }
}
