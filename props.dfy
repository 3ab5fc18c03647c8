/** The component's props and their defaults (src/svgProgress.tsx:8-24).
    An absent prop (`undefined`) takes its default; a present one is used as given. */
module SvgProps {
  import opened Optional
  import opened Gradient
  import opened Content

  datatype Props<N> = Props(
    size: real,
    percent: Option<real>,
    gapAngle: Option<real>,
    backgroundBarColor: Option<string>,
    progressBarWidth: Option<real>,
    progressBarColor: Option<ProgressColor>,
    progressBarOpacity: Option<real>,
    progressFillColor: Option<string>,
    scaleAngles: Option<seq<real>>,
    scaleWidth: Option<real>,
    scaleColor: Option<string>,
    scaleOpacity: Option<real>,
    children: Children<N>)

  /** The props after destructuring with defaults; `scaleAngles` and `children`
      have no default and stay optional. */
  datatype Config<N> = Config(
    size: real,
    percent: real,
    gapAngle: real,
    backgroundBarColor: string,
    progressBarWidth: real,
    progressBarColor: ProgressColor,
    progressBarOpacity: real,
    progressFillColor: string,
    scaleAngles: Option<seq<real>>,
    scaleWidth: real,
    scaleColor: string,
    scaleOpacity: real,
    children: Children<N>)

  const DefaultPercent: real := 1.0
  const DefaultGapAngle: real := 90.0
  const DefaultBackgroundBarColor: string := "#F5F5F4"
  const DefaultProgressBarWidth: real := 15.0
  const DefaultProgressBarColor: ProgressColor := Solid("#2C40F3")
  const DefaultProgressBarOpacity: real := 1.0
  const DefaultProgressFillColor: string := "none"
  const DefaultScaleWidth: real := 2.0
  const DefaultScaleColor: string := "#2a2a2a"
  const DefaultScaleOpacity: real := 0.1

  /** Props with only `size` given. */
  function SizeOnly<N>(size: real): Props<N> {
    Props(size, None, None, None, None, None, None, None, None, None, None, None, NoChildren)
  }

  function WithDefaults<N>(p: Props<N>): (c: Config<N>)
    ensures c.size == p.size && c.scaleAngles == p.scaleAngles && c.children == p.children
    ensures c.percent == (if p.percent.Some? then p.percent.value else DefaultPercent)
    ensures c.gapAngle == (if p.gapAngle.Some? then p.gapAngle.value else DefaultGapAngle)
    ensures c.backgroundBarColor ==
      (if p.backgroundBarColor.Some? then p.backgroundBarColor.value else DefaultBackgroundBarColor)
    ensures c.progressBarWidth ==
      (if p.progressBarWidth.Some? then p.progressBarWidth.value else DefaultProgressBarWidth)
    ensures c.progressBarColor ==
      (if p.progressBarColor.Some? then p.progressBarColor.value else DefaultProgressBarColor)
    ensures c.progressBarOpacity ==
      (if p.progressBarOpacity.Some? then p.progressBarOpacity.value else DefaultProgressBarOpacity)
    ensures c.progressFillColor ==
      (if p.progressFillColor.Some? then p.progressFillColor.value else DefaultProgressFillColor)
    ensures c.scaleWidth == (if p.scaleWidth.Some? then p.scaleWidth.value else DefaultScaleWidth)
    ensures c.scaleColor == (if p.scaleColor.Some? then p.scaleColor.value else DefaultScaleColor)
    ensures c.scaleOpacity == (if p.scaleOpacity.Some? then p.scaleOpacity.value else DefaultScaleOpacity)
  {
    Config(
      p.size,
      p.percent.GetOr(DefaultPercent),
      p.gapAngle.GetOr(DefaultGapAngle),
      p.backgroundBarColor.GetOr(DefaultBackgroundBarColor),
      p.progressBarWidth.GetOr(DefaultProgressBarWidth),
      p.progressBarColor.GetOr(DefaultProgressBarColor),
      p.progressBarOpacity.GetOr(DefaultProgressBarOpacity),
      p.progressFillColor.GetOr(DefaultProgressFillColor),
      p.scaleAngles,
      p.scaleWidth.GetOr(DefaultScaleWidth),
      p.scaleColor.GetOr(DefaultScaleColor),
      p.scaleOpacity.GetOr(DefaultScaleOpacity),
      p.children)
  }
}
