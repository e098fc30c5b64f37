# Angles: stroke-preserving shapes, the angle widget and the scene's layout logic

This project models the logic under the animation script `angles.py`, which
draws six angles, each inside a circle, with a live label θ, and then shrinks
them into a summary grid labelled with the German name of each angle's kind.

- **Stroke-width-scaling shapes** (`swsCircle`, `swsLine`, `swsArc`, module
  `Primitives`): scaling a shape by `f` multiplies its stroke width by `f`.
  For the arc it also multiplies the `radius` attribute by `f`. Then the shape
  itself is scaled about an anchor point. Each class keeps the scalars of the
  drawn shape. `Shape()` gives its value, and each `Scale` method is proved
  against the value-level `Scaled` function. Scaling by `f1` then `f2` is proved
  equal to one scale by `f1 * f2`.
- **The angle widget** (`CircleWithAngle`, module `Widget`): a class that owns
  a circle, a base line, an angle line, a tracking arc and the label. The
  tracker value `vt` is the one input. The updaters (`AngleLineUpdate`,
  `AngUpdate`, `TexPosUpdate`, run in that order by `Tick`) re-derive the angle
  line, the arc and the label from it. `Scale` rescales every part about the
  circle's centre. `Valid()` is the invariant every operation keeps:
  - all parts pivot on the circle's centre;
  - the arc has radius `small_radius` and starts along the base line;
  - `tex_radius - small_radius` is `3*SMALL_BUFF` times the latest factor;
  - a placed label sits on the circle of radius `tex_radius`.
- **The scene's logic** (module `CreateAngles`):
  - `get_ang_kind` as `KindOf`, proved to agree with an independent statement
    of each kind's range (`Denotes`). The ranges are proved pairwise exclusive.
  - The kinds chosen for the six sample angles.
  - `get_target_points` as a loop proved to produce the six grid centres
    column by column. Its spacing is proved to fill the frame height with four
    equal buffers.
  - One widget taken through the scene's steps.

Angles are in degrees throughout. Frame sizes and the circle's height are
parameters. Every quantity is a `real`.

Two behaviours of the code are modelled as written and stated in contracts:

- The arc updater rebuilds the arc with the framework's default stroke
  width. So after a scale, the next redraw undoes the arc's scaled stroke
  (`ShowAngle`, `arcStrokeAfter`).
- The label offset after a scale is `3*SMALL_BUFF` times the latest factor
  alone, not the product of all factors (`ScaleTwice`).

The circle is built centred on ORIGIN, whatever `origin` is. The arc and the
label are built from the base line's start and direction, and the label's
threshold is tested on the tracker value itself.

## Model

| member | source | states |
|---|---|---|
| Geometry.ScaleAbout | angles.py:115-119 | scaling about a point leaves that point where it is; a factor of 1 moves nothing |
| Primitives.SwsCircle.constructor | angles.py:8-10 | a new circle has the given centre and stroke width |
| Primitives.SwsCircle.Scale | angles.py:12-14 | stroke width becomes old stroke times f, the circle is scaled about the anchor, and the circle itself is returned |
| Primitives.SwsLine.constructor | angles.py:16-18 | a new segment has the given start, direction, length and stroke width |
| Primitives.SwsLine.Scale | angles.py:20-22 | stroke width becomes old stroke times f, the segment is scaled about the anchor with its direction kept, and the segment itself is returned |
| Primitives.SwsLine.SetAngle | angles.py:69 | the segment is turned about its start to the given direction; start, length and stroke are kept |
| Primitives.SwsArc.constructor | angles.py:24-26 | a new arc has exactly the given centre, radius, start angle, sweep and stroke |
| Primitives.SwsArc.Scale | angles.py:28-31 | stroke width and radius both become old value times f, the arc is scaled about the anchor with start angle and sweep kept, and the arc itself is returned |
| Primitives.SwsArc.Become | angles.py:93-101 | after become, the arc is exactly the new arc, whatever it was before |
| Primitives.CircleScaleCompose | angles.py:12-14 | scaling a circle by f1 and then by f2 about one anchor equals scaling it once by f1*f2 |
| Primitives.LineScaleCompose | angles.py:20-22 | scaling a segment by f1 and then by f2 about one anchor equals scaling it once by f1*f2 |
| Primitives.ArcScaleCompose | angles.py:28-31 | scaling an arc by f1 and then by f2 equals scaling it once by f1*f2, so stroke width and radius are both multiplied by f1*f2 |
| Widget.ArcMidpoint | angles.py:105-111 | the label point lies on the arc's circle (same centre and radius), at the direction equally far from the arc's start and its end |
| Widget.RightDirection | angles.py:59-62 | the segment from ORIGIN to radius*RIGHT points at 0 degrees for a radius of 0 or more (a zero vector has angle 0) and at 180 for a negative one |
| Widget.CircleWithAngle.constructor | angles.py:34-90 | the circle is at ORIGIN with stroke 0.7; both lines run from ORIGIN along radius*RIGHT; the arc starts at the base line's direction, sweeps the angle line's direction, and has radius small_radius; tex_radius is small_radius + 3*SMALL_BUFF; vt is 0; the label is parked at RIGHT*20; the invariant holds |
| Widget.CircleWithAngle.SetValue | angles.py:178 | the tracker takes the new value and the invariant still holds |
| Widget.CircleWithAngle.AngleLineUpdate | angles.py:68-70 | the angle line is turned to the tracker's value about its start, nothing else changes |
| Widget.CircleWithAngle.AngUpdate | angles.py:92-101 | whatever the arc was, it now has centre equal to the base line's start, radius small_radius, start angle equal to the base line's direction, sweep equal to the tracker value, and the default stroke width |
| Widget.CircleWithAngle.TexPosUpdate | angles.py:103-112 | if the tracker value is strictly above 28 degrees, the label moves to the angular midpoint of the arc of radius tex_radius spanning the angle; at or below 28 it stays where it was |
| Widget.CircleWithAngle.Tick | angles.py:68-90 | after one redraw: the angle line is turned to vt about its start, keeping its start, length and stroke; the arc is rebuilt at small_radius from the base line sweeping vt; the label moves to the tex_radius arc's midpoint when vt > 28 and is otherwise unchanged |
| Widget.CircleWithAngle.Scale | angles.py:114-130 | all four parts are scaled by f about the circle's centre before the call, and that centre stays put; small_radius is multiplied by f; tex_radius - small_radius becomes 3*SMALL_BUFF*f; the label glyph is scaled by f and always placed at the new arc's midpoint, with no threshold; vt is unchanged; the widget itself is returned |
| CreateAngles.KindOf | angles.py:231-248 | the kind returned is one whose range of degrees contains the angle: (0,90) spitzer, 90 rechter, (90,180) stumpfer, 180 gestreckter, (180,360) erhabener, 360 voller, 0 Null, below 0 or above 360 unbestimmter |
| CreateAngles.DenotesExclusive | angles.py:231-248 | no angle lies in the ranges of two different kinds |
| CreateAngles.KindOfExactly | angles.py:231-248 | get_ang_kind returns a kind exactly when the angle lies in that kind's range, in both directions |
| CreateAngles.TexAngleKinds | angles.py:214-229 | one kind per sample angle, each the kind of that angle: stumpfer, spitzer, erhabener, rechter, erhabener, erhabener for 163, 32, 227, 90, 270, 336 |
| CreateAngles.Layout | angles.py:256-262 | the scaled diameter is height times factor; three diameters and four buffers fill the frame height; the step is one diameter plus one buffer; the first centre is one buffer plus a radius in from the left and the top edges |
| CreateAngles.Centres | angles.py:263-277 | there are exactly six centres |
| CreateAngles.TargetPoints | angles.py:250-277 | the nested loops produce exactly the six grid centres in column-major order |
| CreateAngles.ColumnMajor | angles.py:264-275 | the point at index 3*i + j is (x0 + i*incr, y0 - j*incr, 0) |
| CreateAngles.GridSteps | angles.py:262-271 | down a column each centre is one step below the previous, and the second column is one step right of the first |
| CreateAngles.GridBottomMargin | angles.py:256-261 | the lowest circle of a column ends one buffer above the frame's bottom edge |
| CreateAngles.ShowAngle | angles.py:139-184 | a default widget driven to a target angle and redrawn has its arc from 0 sweeping the target at radius 0.72; its label is at 1.02 and half the target when the target exceeds 28, else still parked; after scale 0.4, small_radius is 0.288 and the circle stroke 0.28; the next redraw resets the arc's stroke to the default and keeps the label at 0.288 + 0.12, half the target |
| CreateAngles.ScaleTwice | angles.py:120-121 | after scales by f1 and f2, small_radius is 0.72*f1*f2 while the label offset is 3*SMALL_BUFF*f2, the latest factor alone |

## Left out

- The scene script `construct` is not modelled: play, wait, Create, Write, the animate builder, shift, move_to, next_to, arrange_in_grid and the item labels are scheduling and layout done by the animation framework. ShowAngle follows one widget's value, redraw and scale steps only, without the shifts and moves.
- The animation of the tracker is not modelled: it passes through intermediate values frame by frame. SetValue sets the final value, and Tick is one redraw.
- Typesetting is not modelled: the markup around each kind's name, the Tex and MathTex objects, the ang_tex updater and the integer degree strings. Only the choice of kind is modelled.
- The framework's geometry is abstracted. Bézier points, point_from_proportion, get_center and get_angle are not modelled. The label is an angular midpoint at a radius. The shapes are given by centres, starts, directions, lengths and radii. The circle is given by its centre and stroke alone, so its height is a parameter of TargetPoints.
- Floating point is not modelled: every quantity is a real, so rounding and a NaN angle (which get_ang_kind classes as unbestimmter) are out.
- One angle unit is used, degrees. The DEGREES conversion of the tracker and the threshold is left out.
- Colours, the TeX template and the global frame configuration are left out. Frame width and height are parameters.
- SMALL_BUFF (0.1) and the default stroke width (4) are framework constants. They appear here as named constants.
- Primitives.SwsLine.Scale requires a positive factor. The code does not check it. Every call passes 0.4 (angles.py:138, 184), and scaling is meant for positive factors. A negative factor would reflect the segment through the anchor, turning its direction by 180 with length |f| times the old; a factor of 0 collapses it. Neither case is modelled.
- Primitives.SwsArc.Scale requires a positive factor, for the same reason. A negative factor would turn the start angle by 180 and make the arc's radius attribute negative; neither is modelled.
- Widget.CircleWithAngle.Scale requires a positive factor, because it scales the line and the arc.
- Widget.CircleWithAngle.constructor takes no origin and builds at ORIGIN, the default and the only value used. For another origin the lines would run from origin to radius*RIGHT, and their direction would need trigonometry.
- Widget.CircleWithAngle.constructor keeps ang_end and ang_start as fields. The code stores them and never reads them.
- When sws scale is called without an anchor, the framework uses the shape's own centre. The model has no default: callers always pass the anchor.
- The angle line's direction keeps the raw tracker value. The framework reports directions in (-180, 180]; no operation reads the angle line's direction back, so this normalisation is not modelled.
- The label glyph's own shape is not modelled. Only its position and its size factor are kept.
- Widget.CircleWithAngle.Valid does not tie the strokes and lengths to the product of all factors applied so far. Scale states instead that each of them is multiplied by the factor.
