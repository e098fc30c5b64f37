/** CircleWithAngle: a circle with a fixed base radius, a rotating angle
    line, a small arc that tracks the angle and a label θ that follows the arc.

    The tracker value `vt` is the one cell the scene drives; the angle line,
    the arc and the label are re-derived from it by the three updaters.
    Angles are in degrees throughout. */
module Widget {
  import opened Geometry
  import opened Primitives

  /** SMALL_BUFF of the animation framework. */
  const SmallBuff: real := 0.1
  /** The label is placed only for angles strictly above this many degrees. */
  const LabelThreshold: real := 28.0
  /** Stroke width given to the circle. */
  const CircleStroke: real := 0.7
  /** The framework's default stroke width, which the lines and every newly
      built arc get. */
  const DefaultStroke: real := 4.0
  /** Where the label is parked at construction (RIGHT*20, off the frame). */
  const ParkingSpot: Point := Point(20.0, 0.0, 0.0)

  /** Where the label θ sits: parked at a point, or at the point of the circle
      of `radius` about `centre` whose direction is `angle` degrees. */
  datatype Label = Parked(at: Point) | OnArc(centre: Point, radius: real, angle: real)

  /** The point at proportion 0.5 of the arc of `radius` about `centre` that
      starts at `start` and sweeps `sweep` degrees: its angular midpoint. */
  function ArcMidpoint(centre: Point, radius: real, start: real, sweep: real): (l: Label)
    ensures l.OnArc? && l.centre == centre && l.radius == radius
    ensures l.angle - start == (start + sweep) - l.angle
  {
    OnArc(centre, radius, start + sweep / 2.0)
  }

  /** Direction of the segment from ORIGIN to radius*RIGHT. */
  function RightDirection(radius: real): (a: real)
    ensures radius >= 0.0 ==> a == 0.0
    ensures radius < 0.0 ==> a == 180.0
  {
    if radius < 0.0 then 180.0 else 0.0
  }

  class CircleWithAngle {
    const angEnd: real
    const angStart: real
    const radius: real
    const origin: Point
    var smallRadius: real
    var texRadius: real
    /** The value of the tracker vt_1. */
    var vt: real

    const circle: SwsCircle
    const baseLine: SwsLine
    const angleLine: SwsLine
    const arc: SwsArc
    /** Where the label θ is. */
    var tex: Label
    /** Size of the label glyph relative to its size at construction. */
    var texSize: real

    /** The factor of the latest scale (1 before any). */
    ghost var lastFactor: real

    /** What construction establishes and every operation keeps. */
    ghost predicate Valid()
      reads this, circle, baseLine, angleLine, arc
    {
      && baseLine != angleLine
      && lastFactor > 0.0
      // every part pivots on the circle's centre
      && baseLine.start == circle.centre
      && angleLine.start == circle.centre
      && arc.centre == circle.centre
      // the tracking arc hangs on the base line at the small radius
      && arc.radius == smallRadius
      && arc.startAngle == baseLine.angle
      // the label offset follows the latest factor only
      && texRadius - smallRadius == 3.0 * SmallBuff * lastFactor
      && (tex.Parked? || (tex.centre == circle.centre && tex.radius == texRadius))
    }

    /** CircleWithAngle.__init__ with origin ORIGIN. */
    constructor (angEnd: real, angStart: real, radius: real, smallRadius: real)
      ensures Valid()
      ensures this.angEnd == angEnd && this.angStart == angStart && this.radius == radius
      ensures origin == Origin && vt == 0.0
      ensures this.smallRadius == smallRadius && texRadius == smallRadius + 3.0 * SmallBuff
      ensures circle.Shape() == CircleShape(Origin, CircleStroke)
      ensures baseLine.Shape() == LineShape(Origin, RightDirection(radius), Abs(radius), DefaultStroke)
      ensures angleLine.Shape() == baseLine.Shape()
      ensures arc.Shape() == ArcShape(Origin, smallRadius, RightDirection(radius), RightDirection(radius), DefaultStroke)
      ensures tex == Parked(ParkingSpot) && texSize == 1.0
      ensures fresh(circle) && fresh(baseLine) && fresh(angleLine) && fresh(arc)
    {
      this.angEnd := angEnd;
      this.angStart := angStart;
      this.radius := radius;
      this.smallRadius := smallRadius;
      texRadius := smallRadius + 3.0 * SmallBuff;
      origin := Origin;
      vt := 0.0;
      var direction := RightDirection(radius);
      circle := new SwsCircle(Origin, CircleStroke);
      baseLine := new SwsLine(Origin, direction, Abs(radius), DefaultStroke);
      angleLine := new SwsLine(Origin, direction, Abs(radius), DefaultStroke);
      // the arc spans from the base line's direction by the angle line's direction
      arc := new SwsArc(ArcShape(Origin, smallRadius, direction, direction, DefaultStroke));
      tex := Parked(ParkingSpot);
      texSize := 1.0;
      lastFactor := 1.0;
    }

    /** ValueTracker.set_value on vt_1: the scene's only input. */
    method SetValue(v: real)
      requires Valid()
      modifies this`vt
      ensures Valid() && vt == v
    {
      vt := v;
    }

    /** The angle line's updater: turn it to the tracker's value. */
    method AngleLineUpdate()
      requires Valid()
      modifies angleLine
      ensures Valid()
      ensures angleLine.Shape() == old(angleLine.Shape()).Turned(vt)
    {
      angleLine.SetAngle(vt);
    }

    /** ang_update: rebuild the tracking arc from the current state, whatever
        the arc was before. */
    method AngUpdate()
      requires Valid()
      modifies arc
      ensures Valid()
      ensures arc.Shape() == ArcShape(baseLine.start, smallRadius, baseLine.angle, vt, DefaultStroke)
    {
      arc.Become(ArcShape(baseLine.start, smallRadius, baseLine.angle, vt, DefaultStroke));
    }

    /** tex_pos_update: above the threshold the label moves to the midpoint of
        the arc of radius tex_radius spanning the angle; otherwise it stays. */
    method TexPosUpdate()
      requires Valid()
      modifies this`tex
      ensures Valid()
      ensures vt > LabelThreshold ==> tex == ArcMidpoint(baseLine.start, texRadius, baseLine.angle, vt)
      ensures vt <= LabelThreshold ==> tex == old(tex)
    {
      if vt > LabelThreshold {
        tex := ArcMidpoint(baseLine.start, texRadius, baseLine.angle, vt);
      }
    }

    /** One redraw: the updaters run in the order the parts were added. */
    method Tick()
      requires Valid()
      modifies this`tex, angleLine, arc
      ensures Valid()
      ensures angleLine.Shape() == old(angleLine.Shape()).Turned(vt)
      ensures arc.Shape() == ArcShape(circle.centre, smallRadius, baseLine.angle, vt, DefaultStroke)
      ensures tex == if vt > LabelThreshold
                       then ArcMidpoint(circle.centre, texRadius, baseLine.angle, vt)
                       else old(tex)
    {
      AngleLineUpdate();
      AngUpdate();
      TexPosUpdate();
    }

    /** CircleWithAngle.scale: every part scaled by `f` about the circle's
        centre before the call, the small radius and tex offset rescaled,
        and the label always placed on the new arc; returns the widget itself. */
    method Scale(f: real) returns (r: CircleWithAngle)
      requires Valid() && f > 0.0
      modifies this, circle, baseLine, angleLine, arc
      ensures Valid() && r == this
      ensures circle.Shape() == old(circle.Shape()).Scaled(f, old(circle.centre))
      ensures baseLine.Shape() == old(baseLine.Shape()).Scaled(f, old(circle.centre))
      ensures angleLine.Shape() == old(angleLine.Shape()).Scaled(f, old(circle.centre))
      ensures arc.Shape() == old(arc.Shape()).Scaled(f, old(circle.centre))
      ensures circle.centre == old(circle.centre)
      ensures smallRadius == old(smallRadius) * f
      ensures texRadius - smallRadius == 3.0 * SmallBuff * f
      ensures texSize == old(texSize) * f
      ensures tex == ArcMidpoint(circle.centre, texRadius, baseLine.angle, vt)
      ensures vt == old(vt)
    {
      var pivot := circle.centre;
      var _ := circle.Scale(f, pivot);
      assert circle.centre == pivot;
      var _ := baseLine.Scale(f, pivot);
      assert baseLine.start == pivot && baseLine.angle == old(baseLine.angle);
      var _ := angleLine.Scale(f, pivot);
      assert angleLine.start == pivot;
      var _ := arc.Scale(f, pivot);
      assert arc.centre == pivot && arc.startAngle == baseLine.angle;
      assert arc.radius == smallRadius * f;
      smallRadius := smallRadius * f;
      var offset := 3.0 * SmallBuff * f;
      texRadius := smallRadius + offset;
      texSize := texSize * f;
      tex := ArcMidpoint(pivot, texRadius, baseLine.angle, vt);
      lastFactor := f;
      r := this;
    }
  }
}
