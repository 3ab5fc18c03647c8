/** The whole component (src/svgProgress.tsx:7-143): props in, a fixed-size
    drawing out. The drawing is a plain record: a container of width and
    height `size` holding a vector surface with the primitives in a fixed
    order, and the resolved overlay content on top. */
module Render {
  import opened Optional
  import opened Numerics
  import opened Arc
  import opened Scale
  import opened Gradient
  import opened Content
  import opened SvgProps

  /** A `Circle` primitive with the attributes the geometry decides. */
  datatype Circle = Circle(cx: real, cy: real, r: real, stroke: Paint, strokeWidth: real,
                           dash: DashPair, rotation: Rotation)

  datatype SvgChild = DefsNode(gradient: LinearGradient) | CircleNode(circle: Circle) | LineNode(line: Line)

  datatype ViewBox = ViewBox(minX: real, minY: real, width: real, height: real)

  datatype Surface = Surface(viewBox: ViewBox, width: real, height: real, children: seq<SvgChild>)

  datatype Drawing<N> = Drawing(width: real, height: real, surface: Surface, content: Option<N>)

  /** The radius for the defaulted props. */
  function ConfigRadius<N>(c: Config<N>): (r: real)
    ensures r + c.progressBarWidth / 2.0 == c.size / 2.0
  {
    Radius(c.size, c.progressBarWidth)
  }

  /** The circumference for the defaulted props. */
  function ConfigCircumference<N>(m: MathLib, c: Config<N>): (r: real)
    ensures r / (2.0 * m.pi) == ConfigRadius(c)
  {
    Circumference(m, ConfigRadius(c))
  }

  /** renderBackgroundCircle. */
  function BackgroundCircle<N>(m: MathLib, c: Config<N>): (k: Circle)
    ensures k.dash.draw + k.dash.skip == ConfigCircumference(m, c)
    ensures k.dash == BackgroundDash(ConfigCircumference(m, c), c.gapAngle)
    ensures k.stroke == Literal(c.backgroundBarColor)
  {
    Circle(c.size / 2.0, c.size / 2.0, ConfigRadius(c), Literal(c.backgroundBarColor), c.progressBarWidth,
           BackgroundDash(ConfigCircumference(m, c), c.gapAngle), ArcRotation(c.size, c.gapAngle))
  }

  /** renderCircularProgress. */
  function ProgressCircle<N>(m: MathLib, c: Config<N>): (k: Circle)
    ensures k.dash.draw + k.dash.skip == ConfigCircumference(m, c)
    ensures k.dash.draw == c.percent / 100.0 * BackgroundCircle(m, c).dash.draw
    ensures k.stroke == ProgressStroke(c.progressBarColor)
  {
    Circle(c.size / 2.0, c.size / 2.0, ConfigRadius(c), ProgressStroke(c.progressBarColor), c.progressBarWidth,
           ProgressDash(ConfigCircumference(m, c), c.gapAngle, c.percent), ArcRotation(c.size, c.gapAngle))
  }

  /** renderScaleAngles. */
  function ScaleTicks<N>(m: MathLib, c: Config<N>): (r: Option<seq<Line>>)
    ensures r.None? <==> c.scaleAngles.None?
    ensures r.Some? ==> |r.value| == |c.scaleAngles.value|
    ensures r.Some? ==> forall i :: 0 <= i < |r.value| ==>
      r.value[i] == Tick(m, c.size, ConfigRadius(c), c.progressBarWidth, c.scaleAngles.value[i],
                         TickStyle(c.scaleColor, c.scaleWidth, c.scaleOpacity))
  {
    Ticks(m, c.size, ConfigRadius(c), c.progressBarWidth, c.scaleAngles,
          TickStyle(c.scaleColor, c.scaleWidth, c.scaleOpacity))
  }

  /** The number of tick lines drawn: none when the angle list is absent. */
  function TickCount<N>(c: Config<N>): nat {
    if c.scaleAngles.Some? then |c.scaleAngles.value| else 0
  }

  /** 1 when a gradient definition is drawn, else 0. */
  function DefsCount<N>(c: Config<N>): nat {
    if c.progressBarColor.Gradient? then 1 else 0
  }

  /** What renderDefs contributes to the surface: nothing, or one `Defs` node. */
  function DefsChildren(color: ProgressColor): (r: seq<SvgChild>)
    ensures |r| == (if color.Gradient? then 1 else 0)
    ensures color.Gradient? ==> r[0] == DefsNode(Defs(color).value)
  {
    match Defs(color)
    case None => []
    case Some(g) => [DefsNode(g)]
  }

  /** What renderScaleAngles contributes: nothing for `null`, else one line per tick. */
  function TickChildren(ticks: Option<seq<Line>>): (r: seq<SvgChild>)
    ensures |r| == (if ticks.Some? then |ticks.value| else 0)
    ensures ticks.Some? ==> forall i :: 0 <= i < |r| ==> r[i] == LineNode(ticks.value[i])
  {
    match ticks
    case None => []
    case Some(ls) => seq(|ls|, i requires 0 <= i < |ls| => LineNode(ls[i]))
  }

  /** The surface's children: gradient definition (if any), background arc,
      progress arc, then one line per tick. A `null` from a render helper
      contributes nothing. */
  function SurfaceChildren<N>(m: MathLib, c: Config<N>): (r: seq<SvgChild>)
    ensures |r| == DefsCount(c) + 2 + TickCount(c)
    ensures DefsCount(c) == 1 ==> r[0] == DefsNode(Defs(c.progressBarColor).value)
    ensures r[DefsCount(c)] == CircleNode(BackgroundCircle(m, c))
    ensures r[DefsCount(c) + 1] == CircleNode(ProgressCircle(m, c))
    ensures forall i :: 0 <= i < TickCount(c) ==>
      r[DefsCount(c) + 2 + i] == LineNode(ScaleTicks(m, c).value[i])
  {
    DefsChildren(c.progressBarColor)
      + [CircleNode(BackgroundCircle(m, c)), CircleNode(ProgressCircle(m, c))]
      + TickChildren(ScaleTicks(m, c))
  }

  /** SvgProgress: the container and the surface are `size` by `size`, the
      surface's coordinates match its pixels, and the content is resolved
      with the (defaulted) percent. */
  function Render<N>(m: MathLib, p: Props<N>): (d: Drawing<N>)
    ensures d.width == d.height == p.size
    ensures d.surface.viewBox == ViewBox(0.0, 0.0, p.size, p.size)
    ensures d.surface.width == d.surface.height == p.size
    ensures d.surface.children == SurfaceChildren(m, WithDefaults(p))
    ensures d.content == ResolveContent(p.children, WithDefaults(p).percent)
  {
    var c := WithDefaults(p);
    Drawing(c.size, c.size,
            Surface(ViewBox(0.0, 0.0, c.size, c.size), c.size, c.size, SurfaceChildren(m, c)),
            ResolveContent(c.children, c.percent))
  }

  /** A gradient is defined before the progress arc refers to it, and nothing
      is defined when the colour is solid. */
  lemma GradientDefinedBeforeUse<N>(m: MathLib, p: Props<N>)
    ensures var children := Render(m, p).surface.children;
      forall j :: 0 <= j < |children| && children[j].CircleNode? && children[j].circle.stroke.UrlRef? ==>
        exists i :: 0 <= i < j && children[i].DefsNode? && children[i].gradient.id == children[j].circle.stroke.id
    ensures var children := Render(m, p).surface.children;
      WithDefaults(p).progressBarColor.Solid? ==> forall j :: 0 <= j < |children| ==> !children[j].DefsNode?
  {
  }

  /** The two arcs are drawn on the same circle with the same stroke width and
      the same rotation, 90 + gapAngle/2 degrees about the centre. */
  lemma ArcsShareFrame<N>(m: MathLib, c: Config<N>)
    ensures var b, q := BackgroundCircle(m, c), ProgressCircle(m, c);
      && b.cx == q.cx == b.cy == q.cy == c.size / 2.0
      && b.r == q.r == Radius(c.size, c.progressBarWidth)
      && b.strokeWidth == q.strokeWidth == c.progressBarWidth
      && b.rotation == q.rotation == Rotation(90.0 + c.gapAngle / 2.0, c.size / 2.0, c.size / 2.0)
  {
  }

  /** Changing the percent changes only the progress arc's dash pattern and the
      content: the definitions, the background arc, the progress arc's frame and
      stroke and the ticks stay as they are. */
  lemma PercentMovesOnlyProgress<N>(m: MathLib, c: Config<N>, percent: real)
    ensures var a, b := SurfaceChildren(m, c), SurfaceChildren(m, c.(percent := percent));
      var k := DefsCount(c);
      && |a| == |b|
      && (forall i :: 0 <= i < |a| && i != k + 1 ==> a[i] == b[i])
      && a[k + 1].circle.(dash := b[k + 1].circle.dash) == b[k + 1].circle
  {
    var c' := c.(percent := percent);
    var d, t := DefsChildren(c.progressBarColor), TickChildren(ScaleTicks(m, c));
    var bg := CircleNode(BackgroundCircle(m, c));
    PercentKeepsFrame(m, c, percent);
    assert SurfaceChildren(m, c) == d + [bg, CircleNode(ProgressCircle(m, c))] + t;
    assert SurfaceChildren(m, c') == d + [bg, CircleNode(ProgressCircle(m, c'))] + t;
    DifferOnlyAt(d, bg, CircleNode(ProgressCircle(m, c)), CircleNode(ProgressCircle(m, c')), t);
  }

  /** The parts of the surface that do not depend on the percent. */
  lemma PercentKeepsFrame<N>(m: MathLib, c: Config<N>, percent: real)
    ensures BackgroundCircle(m, c.(percent := percent)) == BackgroundCircle(m, c)
    ensures ScaleTicks(m, c.(percent := percent)) == ScaleTicks(m, c)
    ensures ProgressCircle(m, c).(dash := ProgressCircle(m, c.(percent := percent)).dash)
      == ProgressCircle(m, c.(percent := percent))
  {
  }

  lemma DifferOnlyAt<T>(d: seq<T>, u: T, x: T, y: T, t: seq<T>)
    ensures var a, b := d + [u, x] + t, d + [u, y] + t;
      && |a| == |b|
      && (forall i :: 0 <= i < |a| && i != |d| + 1 ==> a[i] == b[i])
      && a[|d| + 1] == x && b[|d| + 1] == y
  {
  }

  /** size = 100, band width 20, gap 90 degrees, percent 50, a solid colour and
      no ticks: radius 40, circumference 80π, gap 20π, visible 60π, progress 30π. */
  lemma HalfProgressScenario<N>(m: MathLib)
    ensures var p := SizeOnly<N>(100.0).(progressBarWidth := Some(20.0), gapAngle := Some(90.0),
                                         percent := Some(50.0));
      var pi := m.pi;
      var rot := Rotation(135.0, 50.0, 50.0);
      Render(m, p).surface.children ==
        [CircleNode(Circle(50.0, 50.0, 40.0, Literal(DefaultBackgroundBarColor), 20.0,
                           DashPair(60.0 * pi, 20.0 * pi), rot)),
         CircleNode(Circle(50.0, 50.0, 40.0, Literal("#2C40F3"), 20.0,
                           DashPair(30.0 * pi, 50.0 * pi), rot))]
  {
  }
}
