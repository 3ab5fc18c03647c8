/** Tick marks (src/svgProgress.tsx:73-95): one short radial segment per
    angle, straddling the stroke band of the arcs. */
module Scale {
  import opened Optional
  import opened Numerics

  /** The stroke attributes every tick carries (scale colour, width, opacity). */
  datatype TickStyle = TickStyle(color: string, width: real, opacity: real)

  /** A `Line` from (x1, y1) to (x2, y2). */
  datatype Line = Line(x1: real, y1: real, x2: real, y2: real, style: TickStyle)

  /** Degrees to radians. */
  function Radians(m: MathLib, degrees: real): (rad: real)
    ensures rad / m.pi * 180.0 == degrees
  {
    (degrees * m.pi) / 180.0
  }

  /** The tick at `angle` degrees, for a circle of radius `radius` centred in the
      `size`-wide square and a stroke band of width `barWidth`. */
  function Tick(m: MathLib, size: real, radius: real, barWidth: real, angle: real, style: TickStyle): (t: Line)
    // the segment's extent is the band width along the direction of the angle
    ensures t.x1 - t.x2 == barWidth * m.cos(Radians(m, angle))
    ensures t.y1 - t.y2 == barWidth * m.sin(Radians(m, angle))
    // its midpoint is the point of the arcs' circle at that angle
    ensures (t.x1 + t.x2) / 2.0 == size / 2.0 + radius * m.cos(Radians(m, angle))
    ensures (t.y1 + t.y2) / 2.0 == size / 2.0 + radius * m.sin(Radians(m, angle))
    ensures t.style == style
  {
    var radian := Radians(m, angle);
    var halfStrokeWidth := barWidth / 2.0;
    Line(size / 2.0 + (radius + halfStrokeWidth) * m.cos(radian),
         size / 2.0 + (radius + halfStrokeWidth) * m.sin(radian),
         size / 2.0 + (radius - halfStrokeWidth) * m.cos(radian),
         size / 2.0 + (radius - halfStrokeWidth) * m.sin(radian),
         style)
  }

  /** No ticks at all when the angle list is absent; otherwise one tick per angle,
      in the same order (an empty list gives an empty, present, list). */
  function Ticks(m: MathLib, size: real, radius: real, barWidth: real,
                 scaleAngles: Option<seq<real>>, style: TickStyle): (r: Option<seq<Line>>)
    ensures r.None? <==> scaleAngles.None?
    ensures r.Some? ==> |r.value| == |scaleAngles.value|
    ensures r.Some? ==> forall i :: 0 <= i < |r.value| ==>
      r.value[i] == Tick(m, size, radius, barWidth, scaleAngles.value[i], style)
  {
    match scaleAngles
    case None => None
    case Some(angles) =>
      Some(seq(|angles|, i requires 0 <= i < |angles| => Tick(m, size, radius, barWidth, angles[i], style)))
  }

  /** Both endpoints and the centre lie on one line: the tick is radial. */
  lemma TickIsRadial(m: MathLib, size: real, radius: real, barWidth: real, angle: real, style: TickStyle)
    ensures var t := Tick(m, size, radius, barWidth, angle, style);
      var c := size / 2.0;
      (t.x1 - c) * (t.y2 - c) == (t.x2 - c) * (t.y1 - c)
  {
  }

  /** Where cos² + sin² = 1 at the tick's angle, the outer endpoint is at distance
      radius + barWidth/2 from the centre and the inner one at radius - barWidth/2,
      both measured (signed) along the ray at that angle, and the segment is
      exactly barWidth long. */
  lemma TickEndpointDistances(m: MathLib, size: real, radius: real, barWidth: real, angle: real, style: TickStyle)
    requires Pythagorean(m, Radians(m, angle))
    ensures var t := Tick(m, size, radius, barWidth, angle, style);
      var rad := Radians(m, angle);
      var c := size / 2.0;
      && (t.x1 - c) * m.cos(rad) + (t.y1 - c) * m.sin(rad) == radius + barWidth / 2.0
      && (t.x2 - c) * m.cos(rad) + (t.y2 - c) * m.sin(rad) == radius - barWidth / 2.0
      && (t.x1 - c) * (t.x1 - c) + (t.y1 - c) * (t.y1 - c) == (radius + barWidth / 2.0) * (radius + barWidth / 2.0)
      && (t.x2 - c) * (t.x2 - c) + (t.y2 - c) * (t.y2 - c) == (radius - barWidth / 2.0) * (radius - barWidth / 2.0)
      && (t.x1 - t.x2) * (t.x1 - t.x2) + (t.y1 - t.y2) * (t.y1 - t.y2) == barWidth * barWidth
  {
    var rad := Radians(m, angle);
    var co, si := m.cos(rad), m.sin(rad);
    ScaledUnit(co, si, radius + barWidth / 2.0);
    ScaledUnit(co, si, radius - barWidth / 2.0);
    ScaledUnit(co, si, barWidth);
  }

  /** A point at signed distance d along a unit direction (co, si). */
  lemma ScaledUnit(co: real, si: real, d: real)
    requires co * co + si * si == 1.0
    ensures (d * co) * co + (d * si) * si == d
    ensures (d * co) * (d * co) + (d * si) * (d * si) == d * d
  {
    calc {
      (d * co) * co + (d * si) * si;
      d * (co * co + si * si);
      d;
    }
    calc {
      (d * co) * (d * co) + (d * si) * (d * si);
      (d * d) * (co * co + si * si);
      d * d;
    }
  }

  /** size = 100, band width 20 (so radius 40), one tick at 0 degrees: with
      cos 0 = 1 and sin 0 = 0 it runs from (100, 50) to (80, 50). */
  lemma TickAtZeroDegrees(m: MathLib, style: TickStyle)
    requires m.cos(0.0) == 1.0 && m.sin(0.0) == 0.0
    ensures Ticks(m, 100.0, 40.0, 20.0, Some([0.0]), style) == Some([Line(100.0, 50.0, 80.0, 50.0, style)])
  {
    assert Radians(m, 0.0) == 0.0;
    assert Tick(m, 100.0, 40.0, 20.0, 0.0, style) == Line(100.0, 50.0, 80.0, 50.0, style);
    var r := Ticks(m, 100.0, 40.0, 20.0, Some([0.0]), style);
    assert r.Some? && |r.value| == 1 && r.value[0] == Tick(m, 100.0, 40.0, 20.0, 0.0, style);
    assert r.value == [Line(100.0, 50.0, 80.0, 50.0, style)];
  }
}
