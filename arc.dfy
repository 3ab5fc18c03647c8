/** Geometry of the two arcs (src/svgProgress.tsx:26-33, 52-54, 46, 68).
    Each arc is a full circle whose dash pattern draws one stretch and skips
    the rest; the circle is rotated so that the gap sits at the bottom. */
module Arc {
  import opened Numerics

  /** One dash cycle: draw `draw` units of the circle, then skip `skip` units. */
  datatype DashPair = DashPair(draw: real, skip: real)

  /** `rotate(angle cx cy)`: a rotation by `angle` degrees about (cx, cy). */
  datatype Rotation = Rotation(angle: real, cx: real, cy: real)

  /** Radius of the centre line of the stroke band, so that a band of width
      `barWidth` fits the `size`-wide square. Not floored at zero. */
  function Radius(size: real, barWidth: real): (r: real)
    ensures r + barWidth / 2.0 == size / 2.0
    ensures r >= 0.0 <==> barWidth <= size
    ensures r < 0.0 <==> barWidth > size
  {
    (size - barWidth) / 2.0
  }

  function Circumference(m: MathLib, radius: real): (c: real)
    ensures c / (2.0 * m.pi) == radius
    ensures c > 0.0 <==> radius > 0.0
    ensures c == 0.0 <==> radius == 0.0
  {
    2.0 * m.pi * radius
  }

  /** Length of the circle taken by a gap of `gapAngle` degrees. */
  function GapLength(gapAngle: real, circumference: real): (g: real)
    ensures g * 360.0 == gapAngle * circumference
    ensures circumference != 0.0 ==> g / circumference * 360.0 == gapAngle
  {
    (gapAngle / 360.0) * circumference
  }

  /** Dash pattern of the background arc: the whole circle except the gap. */
  function BackgroundDash(circumference: real, gapAngle: real): (d: DashPair)
    ensures d.draw + d.skip == circumference
    ensures d.skip == GapLength(gapAngle, circumference)
    ensures d.draw == (360.0 - gapAngle) / 360.0 * circumference
  {
    var gapLength := GapLength(gapAngle, circumference);
    DashPair(circumference - gapLength, gapLength)
  }

  /** Dash pattern of the progress arc: `percent` per cent of the background's
      visible length, then the rest of the circle skipped. `percent` is not clamped. */
  function ProgressDash(circumference: real, gapAngle: real, percent: real): (d: DashPair)
    ensures d.draw + d.skip == circumference
    ensures d.draw == percent / 100.0 * BackgroundDash(circumference, gapAngle).draw
  {
    var gapLength := GapLength(gapAngle, circumference);
    var progressLength := (percent / 100.0) * (circumference - gapLength);
    DashPair(progressLength, circumference - progressLength)
  }

  /** The rotation both arcs get: about the centre of the square, by 90 degrees
      plus half the gap angle, so that the gap is centred on the bottom. */
  function ArcRotation(size: real, gapAngle: real): (t: Rotation)
    ensures t.cx == t.cy == size / 2.0
    // the dash starts at angle t.angle and, drawn clockwise, its gap spans
    // 360 - gapAngle .. 360 degrees later: the gap's middle is at 90 degrees (mod 360)
    ensures t.angle + (360.0 - gapAngle) + gapAngle / 2.0 == 90.0 + 360.0
  {
    Rotation(90.0 + gapAngle / 2.0, size / 2.0, size / 2.0)
  }

  /** The angle, in degrees, that an arc of length `len` spans on a circle
      of circumference `circumference`. */
  function Degrees(len: real, circumference: real): real
    requires circumference != 0.0
  {
    len / circumference * 360.0
  }

  /** On a proper circle, the background arc spans exactly 360 - gapAngle degrees
      and its gap exactly gapAngle degrees. */
  lemma BackgroundSpansDegrees(m: MathLib, radius: real, gapAngle: real)
    requires radius != 0.0
    ensures var c := Circumference(m, radius);
      var d := BackgroundDash(c, gapAngle);
      Degrees(d.draw, c) == 360.0 - gapAngle && Degrees(d.skip, c) == gapAngle
  {
    var c := Circumference(m, radius);
    var d := BackgroundDash(c, gapAngle);
    var a := (360.0 - gapAngle) / 360.0;
    assert d.draw == a * c;
    MulDivCancel(a, c);
    assert d.draw / c == a;
    var g := gapAngle / 360.0;
    assert d.skip == g * c;
    MulDivCancel(g, c);
    assert d.skip / c == g;
  }

  lemma MulDivCancel(a: real, c: real)
    requires c != 0.0
    ensures (a * c) / c == a
  {
  }

  /** percent = 0 draws nothing and skips the whole circle. */
  lemma ProgressAtZero(circumference: real, gapAngle: real)
    ensures ProgressDash(circumference, gapAngle, 0.0) == DashPair(0.0, circumference)
  {
  }

  /** percent = 100 draws exactly the background's visible arc and skips exactly its gap. */
  lemma ProgressAtFull(circumference: real, gapAngle: real)
    ensures ProgressDash(circumference, gapAngle, 100.0) == BackgroundDash(circumference, gapAngle)
  {
  }

  /** For a non-negative radius and a gap of at most a full turn, the visible length is non-negative. */
  lemma VisibleLengthNonNegative(m: MathLib, radius: real, gapAngle: real)
    requires radius >= 0.0 && gapAngle <= 360.0
    ensures BackgroundDash(Circumference(m, radius), gapAngle).draw >= 0.0
  {
  }

  /** When the visible length is non-negative, the progress length never decreases as percent grows. */
  lemma ProgressMonotone(circumference: real, gapAngle: real, p: real, q: real)
    requires BackgroundDash(circumference, gapAngle).draw >= 0.0
    requires p <= q
    ensures ProgressDash(circumference, gapAngle, p).draw <= ProgressDash(circumference, gapAngle, q).draw
  {
  }

  /** For a percent in [0, 100] the progress arc lies within the visible arc,
      and its skipped part covers at least the gap. */
  lemma ProgressWithinVisible(circumference: real, gapAngle: real, percent: real)
    requires BackgroundDash(circumference, gapAngle).draw >= 0.0
    requires 0.0 <= percent <= 100.0
    ensures var p := ProgressDash(circumference, gapAngle, percent);
      var b := BackgroundDash(circumference, gapAngle);
      0.0 <= p.draw <= b.draw && p.skip >= b.skip
  {
    ProgressAtZero(circumference, gapAngle);
    ProgressAtFull(circumference, gapAngle);
    ProgressMonotone(circumference, gapAngle, 0.0, percent);
    ProgressMonotone(circumference, gapAngle, percent, 100.0);
  }

  /** percent is not clamped: below 0 the drawn length is negative, above 100 it
      exceeds the visible arc (whenever the visible arc is non-empty). */
  lemma ProgressNotClamped(circumference: real, gapAngle: real, percent: real)
    requires BackgroundDash(circumference, gapAngle).draw > 0.0
    ensures percent < 0.0 ==> ProgressDash(circumference, gapAngle, percent).draw < 0.0
    ensures percent > 100.0 ==>
      ProgressDash(circumference, gapAngle, percent).draw > BackgroundDash(circumference, gapAngle).draw
  {
    var visible := BackgroundDash(circumference, gapAngle).draw;
    var q := percent / 100.0;
    assert ProgressDash(circumference, gapAngle, percent).draw == q * visible;
    if percent < 0.0 {
      MulPositive(-q, visible);
      assert q * visible == -((-q) * visible);
    }
    if percent > 100.0 {
      MulPositive(q - 1.0, visible);
      assert q * visible == (q - 1.0) * visible + visible;
    }
  }

  lemma MulPositive(a: real, b: real)
    requires a > 0.0 && b > 0.0
    ensures a * b > 0.0
  {
  }
}
