/** The stroke-width-scaling shapes swsCircle, swsLine and swsArc.

    Each class keeps the scalars of the rendered shape and overrides scale so
    that the stroke width is multiplied by the factor (and, for the arc, the
    radius attribute too) before the shape itself is scaled about an anchor.
    `Shape()` gives each object's value; the value-level `Scaled` functions are
    what the `Scale` methods are proved against. */
module Primitives {
  import opened Geometry

  /** A circle as drawn: its centre and its stroke width. */
  datatype CircleShape = CircleShape(centre: Point, stroke: real)
  {
    /** The circle after swsCircle.scale(f) about `about`. */
    function Scaled(f: real, about: Point): CircleShape
    {
      CircleShape(ScaleAbout(centre, f, about), stroke * f)
    }
  }

  /** A segment as drawn: its start point, its direction in degrees, its length
      and its stroke width. */
  datatype LineShape = LineShape(start: Point, angle: real, length: real, stroke: real)
  {
    /** The segment after swsLine.scale(f) about `about`; a positive factor
        keeps the direction. */
    function Scaled(f: real, about: Point): LineShape
      requires f > 0.0
    {
      LineShape(ScaleAbout(start, f, about), angle, length * f, stroke * f)
    }

    /** The segment after Line.set_angle(a): turned about its start point. */
    function Turned(a: real): LineShape
    {
      this.(angle := a)
    }
  }

  /** An arc as drawn: centre, radius, start angle and sweep in degrees, and
      stroke width. */
  datatype ArcShape = ArcShape(centre: Point, radius: real, startAngle: real, sweep: real, stroke: real)
  {
    /** The arc after swsArc.scale(f) about `about`. */
    function Scaled(f: real, about: Point): ArcShape
      requires f > 0.0
    {
      ArcShape(ScaleAbout(centre, f, about), radius * f, startAngle, sweep, stroke * f)
    }
  }

  /** Scaling a circle by f1 and then by f2 is scaling it by f1 * f2. */
  lemma CircleScaleCompose(s: CircleShape, f1: real, f2: real, about: Point)
    ensures s.Scaled(f1, about).Scaled(f2, about) == s.Scaled(f1 * f2, about)
  {
    ScaleAboutCompose(s.centre, f1, f2, about);
  }

  /** Scaling a segment by f1 and then by f2 is scaling it by f1 * f2. */
  lemma LineScaleCompose(s: LineShape, f1: real, f2: real, about: Point)
    requires f1 > 0.0 && f2 > 0.0
    ensures f1 * f2 > 0.0
    ensures s.Scaled(f1, about).Scaled(f2, about) == s.Scaled(f1 * f2, about)
  {
    ScaleAboutCompose(s.start, f1, f2, about);
  }

  /** Scaling an arc by f1 and then by f2 is scaling it by f1 * f2, radius included. */
  lemma ArcScaleCompose(s: ArcShape, f1: real, f2: real, about: Point)
    requires f1 > 0.0 && f2 > 0.0
    ensures f1 * f2 > 0.0
    ensures s.Scaled(f1, about).Scaled(f2, about) == s.Scaled(f1 * f2, about)
  {
    ScaleAboutCompose(s.centre, f1, f2, about);
  }

  /** swsCircle */
  class SwsCircle {
    var centre: Point
    var stroke: real

    function Shape(): CircleShape
      reads this
    {
      CircleShape(centre, stroke)
    }

    constructor (centre: Point, stroke: real)
      ensures Shape() == CircleShape(centre, stroke)
    {
      this.centre := centre;
      this.stroke := stroke;
    }

    /** swsCircle.scale: stroke width times f, then the circle scaled about `about`;
        returns the circle itself. */
    method Scale(f: real, about: Point) returns (r: SwsCircle)
      modifies this
      ensures Shape() == old(Shape()).Scaled(f, about)
      ensures stroke == old(stroke) * f
      ensures r == this
    {
      stroke := stroke * f;
      centre := ScaleAbout(centre, f, about);
      r := this;
    }
  }

  /** swsLine */
  class SwsLine {
    var start: Point
    var angle: real
    var length: real
    var stroke: real

    function Shape(): LineShape
      reads this
    {
      LineShape(start, angle, length, stroke)
    }

    constructor (start: Point, angle: real, length: real, stroke: real)
      ensures Shape() == LineShape(start, angle, length, stroke)
    {
      this.start := start;
      this.angle := angle;
      this.length := length;
      this.stroke := stroke;
    }

    /** swsLine.scale: stroke width times f, then the segment scaled about `about`;
        returns the segment itself. */
    method Scale(f: real, about: Point) returns (r: SwsLine)
      requires f > 0.0
      modifies this
      ensures Shape() == old(Shape()).Scaled(f, about)
      ensures stroke == old(stroke) * f && angle == old(angle)
      ensures r == this
    {
      stroke := stroke * f;
      start := ScaleAbout(start, f, about);
      length := length * f;
      r := this;
    }

    /** Line.set_angle: turn the segment about its start to direction `a`. */
    method SetAngle(a: real)
      modifies this
      ensures Shape() == old(Shape()).Turned(a)
    {
      angle := a;
    }
  }

  /** swsArc */
  class SwsArc {
    var centre: Point
    var radius: real
    var startAngle: real
    var sweep: real
    var stroke: real

    function Shape(): ArcShape
      reads this
    {
      ArcShape(centre, radius, startAngle, sweep, stroke)
    }

    constructor (s: ArcShape)
      ensures Shape() == s
    {
      centre, radius, startAngle, sweep, stroke := s.centre, s.radius, s.startAngle, s.sweep, s.stroke;
    }

    /** swsArc.scale: stroke width and radius times f, then the arc scaled about
        `about`; returns the arc itself. */
    method Scale(f: real, about: Point) returns (r: SwsArc)
      requires f > 0.0
      modifies this
      ensures Shape() == old(Shape()).Scaled(f, about)
      ensures stroke == old(stroke) * f && radius == old(radius) * f
      ensures r == this
    {
      stroke := stroke * f;
      radius := radius * f;
      centre := ScaleAbout(centre, f, about);
      r := this;
    }

    /** Mobject.become: this arc takes on every attribute of the arc `s`,
        whatever it was before. */
    method Become(s: ArcShape)
      modifies this
      ensures Shape() == s
    {
      centre, radius, startAngle, sweep, stroke := s.centre, s.radius, s.startAngle, s.sweep, s.stroke;
    }
  }
}
