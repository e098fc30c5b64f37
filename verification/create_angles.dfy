/** The logic of the CreateAngles scene: which kind of angle a value in
    degrees is, the kinds written next to the six sample angles, the grid of
    summary positions, and what one widget goes through in the scene. */
module CreateAngles {
  import opened Geometry
  import opened Primitives
  import opened Widget

  /* ---------------- Kinds of angles ---------------- */

  /** The eight German names of angle kinds: acute, right, obtuse, straight,
      reflex, full, zero, and undetermined for everything else. */
  datatype AngleKind =
    | Spitzer | Rechter | Stumpfer | Gestreckter | Erhabener | Voller | Null | Unbestimmter

  /** The range of degrees each kind stands for, stated independently of the
      order in which get_ang_kind tests them. */
  predicate Denotes(k: AngleKind, ang: real)
  {
    match k
    case Spitzer => 0.0 < ang < 90.0
    case Rechter => ang == 90.0
    case Stumpfer => 90.0 < ang < 180.0
    case Gestreckter => ang == 180.0
    case Erhabener => 180.0 < ang < 360.0
    case Voller => ang == 360.0
    case Null => ang == 0.0
    case Unbestimmter => ang < 0.0 || 360.0 < ang
  }

  /** get_ang_kind without its markup: the kind of the angle `ang` in degrees. */
  function KindOf(ang: real): (k: AngleKind)
    ensures Denotes(k, ang)
  {
    if ang > 0.0 && ang < 90.0 then Spitzer
    else if ang == 90.0 then Rechter
    else if ang > 90.0 && ang < 180.0 then Stumpfer
    else if ang == 180.0 then Gestreckter
    else if ang > 180.0 && ang < 360.0 then Erhabener
    else if ang == 360.0 then Voller
    else if ang == 0.0 then Null
    else Unbestimmter
  }

  /** No angle lies in the ranges of two different kinds. */
  lemma DenotesExclusive(ang: real, k1: AngleKind, k2: AngleKind)
    requires Denotes(k1, ang) && Denotes(k2, ang)
    ensures k1 == k2
  {
    match k1
    case Spitzer =>
    case Rechter =>
    case Stumpfer =>
    case Gestreckter =>
    case Erhabener =>
    case Voller =>
    case Null =>
    case Unbestimmter =>
  }

  /** get_ang_kind gives a kind exactly when the angle lies in that kind's range. */
  lemma KindOfExactly(ang: real, k: AngleKind)
    ensures KindOf(ang) == k <==> Denotes(k, ang)
  {
    if Denotes(k, ang) {
      DenotesExclusive(ang, k, KindOf(ang));
    }
  }

  /** The angles the scene shows, in degrees. */
  const SceneAngles: seq<real> := [163.0, 32.0, 227.0, 90.0, 270.0, 336.0]

  /** The kind get_tex_angles names for each of the scene's six angles. */
  method TexAngleKinds() returns (kinds: seq<AngleKind>)
    ensures |kinds| == |SceneAngles|
    ensures forall i :: 0 <= i < |kinds| ==> kinds[i] == KindOf(SceneAngles[i])
    ensures kinds == [Stumpfer, Spitzer, Erhabener, Rechter, Erhabener, Erhabener]
  {
    kinds := [];
    for i := 0 to 6
      invariant |kinds| == i
      invariant forall j :: 0 <= j < i ==> kinds[j] == KindOf(SceneAngles[j])
    {
      kinds := kinds + [KindOf(SceneAngles[i])];
    }
  }

  /* ---------------- Summary grid ---------------- */

  /** The spacing get_target_points derives: the scaled circle diameter `cd`,
      the buffer `buf` between circles and edges, the first centre (x0, y0)
      and the step `incr` between neighbouring centres. */
  datatype GridLayout = GridLayout(cd: real, buf: real, x0: real, y0: real, incr: real)

  /** The layout for circles of height `circleHeight` scaled by `scaleFct` in a
      frame of `frameWidth` by `frameHeight` centred on the origin. */
  function Layout(scaleFct: real, circleHeight: real, frameWidth: real, frameHeight: real): (g: GridLayout)
    ensures g.cd == circleHeight * scaleFct
    ensures 3.0 * g.cd + 4.0 * g.buf == frameHeight
    ensures g.incr - g.cd == g.buf
    ensures (g.x0 - g.cd / 2.0) - (-frameWidth / 2.0) == g.buf
    ensures frameHeight / 2.0 - (g.y0 + g.cd / 2.0) == g.buf
  {
    var cd := circleHeight * scaleFct;
    var buf := (frameHeight - 3.0 * cd) / 4.0;
    GridLayout(cd, buf, -frameWidth / 2.0 + (buf + cd / 2.0), frameHeight / 2.0 - (buf + cd / 2.0), cd + buf)
  }

  /** The centre in column `i` and row `j` of the grid. */
  function Centre(g: GridLayout, i: int, j: int): Point
  {
    Point(g.x0 + (i as real) * g.incr, g.y0 - (j as real) * g.incr, 0.0)
  }

  /** The six centres, column by column. */
  function Centres(g: GridLayout): (ps: seq<Point>)
    ensures |ps| == 6
  {
    seq(6, k => Centre(g, k / 3, k % 3))
  }

  /** get_target_points: the six centres appended column by column. */
  method TargetPoints(scaleFct: real, circleHeight: real, frameWidth: real, frameHeight: real)
    returns (points: seq<Point>)
    ensures points == Centres(Layout(scaleFct, circleHeight, frameWidth, frameHeight))
  {
    var cd := circleHeight * scaleFct;
    var fh := frameHeight;
    var fw := frameWidth;
    var buf := (fh - 3.0 * cd) / 4.0;
    var x0 := -fw / 2.0 + (buf + cd / 2.0);
    var y0 := fh / 2.0 - (buf + cd / 2.0);
    var incr := cd + buf;
    ghost var g := GridLayout(cd, buf, x0, y0, incr);
    points := [];
    for i := 0 to 2
      invariant points == Centres(g)[..3 * i]
    {
      for j := 0 to 3
        invariant points == Centres(g)[..3 * i + j]
      {
        var p := Point(x0 + (i as real) * incr, y0 - (j as real) * incr, 0.0);
        ColumnMajor(g, i, j);
        assert Centres(g)[3 * i + j] == p;
        assert Centres(g)[..3 * i + j + 1] == Centres(g)[..3 * i + j] + [Centres(g)[3 * i + j]];
        points := points + [p];
      }
    }
    assert Centres(g)[..6] == Centres(g);
  }

  /** Index 3*i + j of a three-row grid is column i, row j. */
  lemma CellIndex(i: int, j: int)
    requires 0 <= i < 2 && 0 <= j < 3
    ensures (3 * i + j) / 3 == i && (3 * i + j) % 3 == j
  {
    if i == 0 {
      assert 3 * i + j == j;
    } else {
      assert 3 * i + j == 3 + j;
    }
  }

  /** The point at index 3*i + j is column i, row j. */
  lemma ColumnMajor(g: GridLayout, i: int, j: int)
    requires 0 <= i < 2 && 0 <= j < 3
    ensures Centres(g)[3 * i + j] == Point(g.x0 + (i as real) * g.incr, g.y0 - (j as real) * g.incr, 0.0)
  {
    var k := 3 * i + j;
    CellIndex(i, j);
    assert Centres(g)[k] == Centre(g, k / 3, k % 3);
  }

  /** Down a column the centres step by one diameter plus one buffer, and the
      second column sits the same step to the right of the first. */
  lemma GridSteps(g: GridLayout, k: int)
    requires 0 <= k < 6
    ensures k % 3 < 2 ==> Centres(g)[k + 1] == Point(Centres(g)[k].x, Centres(g)[k].y - g.incr, 0.0)
    ensures k < 3 ==> Centres(g)[k + 3] == Point(Centres(g)[k].x + g.incr, Centres(g)[k].y, 0.0)
  {
    var i, j := k / 3, k % 3;
    assert k == 3 * i + j && 0 <= i < 2 && 0 <= j < 3;
    ColumnMajor(g, i, j);
    if j < 2 {
      ColumnMajor(g, i, j + 1);
      assert (j + 1) as real * g.incr == (j as real) * g.incr + g.incr;
    }
    if k < 3 {
      ColumnMajor(g, i + 1, j);
      assert ((i + 1) as real) * g.incr == (i as real) * g.incr + g.incr;
    }
  }

  /** The bottom circle of each column ends one buffer above the frame's lower
      edge, as the top circle starts one buffer below the upper edge. */
  lemma GridBottomMargin(scaleFct: real, circleHeight: real, frameWidth: real, frameHeight: real)
    ensures var g := Layout(scaleFct, circleHeight, frameWidth, frameHeight);
            (Centres(g)[2].y - g.cd / 2.0) - (-frameHeight / 2.0) == g.buf
  {
    var g := Layout(scaleFct, circleHeight, frameWidth, frameHeight);
    ColumnMajor(g, 0, 2);
    assert Centres(g)[2].y == g.y0 - 2.0 * g.incr;
  }

  /* ---------------- One widget through the scene ---------------- */

  /** One angle of construct, without the shifts and moves: a default widget
      driven to `target` degrees and redrawn, then scaled by 0.4 and redrawn
      again. Reports the arc and label after the first redraw, the small
      radius and circle stroke after scaling, and the arc's stroke and the
      label after the second redraw. */
  method ShowAngle(target: real)
    returns (arcShown: ArcShape, texShown: Label, smallScaled: real, circleStrokeScaled: real,
             arcStrokeAfter: real, texAfter: Label)
    ensures arcShown == ArcShape(Origin, 0.72, 0.0, target, DefaultStroke)
    ensures texShown == if target > LabelThreshold then OnArc(Origin, 0.72 + 0.3, target / 2.0)
                        else Parked(ParkingSpot)
    ensures smallScaled == 0.288 && circleStrokeScaled == 0.28
    ensures arcStrokeAfter == DefaultStroke
    ensures texAfter == OnArc(Origin, 0.288 + 0.12, target / 2.0)
  {
    var w := new CircleWithAngle(90.0, 0.0, 3.0, 0.72);
    w.SetValue(target);
    w.Tick();
    arcShown := w.arc.Shape();
    texShown := w.tex;
    var _ := w.Scale(0.4);
    smallScaled := w.smallRadius;
    circleStrokeScaled := w.circle.stroke;
    w.Tick();
    arcStrokeAfter := w.arc.stroke;
    texAfter := w.tex;
  }

  /** Two scales in a row: the small radius takes both factors, the label's
      offset from it only the second. */
  method ScaleTwice(f1: real, f2: real) returns (small: real, offset: real)
    requires f1 > 0.0 && f2 > 0.0
    ensures small == 0.72 * f1 * f2
    ensures offset == 3.0 * SmallBuff * f2
  {
    var w := new CircleWithAngle(90.0, 0.0, 3.0, 0.72);
    var _ := w.Scale(f1);
    var _ := w.Scale(f2);
    small := w.smallRadius;
    offset := w.texRadius - w.smallRadius;
  }
}
