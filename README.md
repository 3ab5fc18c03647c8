# SvgProgress geometry, in Dafny

A model of the geometry and configuration logic of the `SvgProgress`
component of react-native-circular-indicator. The component draws a
circular progress indicator as a vector graphic. It has four layers:

- a background arc;
- a progress arc, painted with a solid colour or a multi-stop linear gradient;
- optional radial tick marks;
- a centred overlay, either static or computed from the current percent.

Each arc is a full circle with a one-cycle dash pattern. The circle is
rotated by `90 + gapAngle/2` degrees so that the undrawn gap sits at the bottom.

The model is a set of pure functions from props to plain records. The one
imperative piece of the source is the `reduce` that fills a mutable attribute
record. It is modelled as a method with a loop, proved equal to a declarative
definition of the attributes.

Modules, one per part of the component:

- `Optional`: `Option` (absent versus present props).
- `Numerics`: `MathLib`, the stand-in for JavaScript's `Math`. It holds a
  positive `pi` and two arbitrary total functions `cos` and `sin`. They are
  parameters, so every result holds for any values of them. Where a lemma
  needs cos²θ + sin²θ = 1 at its angle, it says so with the `Pythagorean` precondition.
- `Arc`: the radius, the circumference, both dash patterns and the shared rotation.
- `Scale`: the tick segments.
- `Gradient`: the progress colour (solid or stop list), the gradient attributes,
  the stop entries and the progress stroke paint.
- `Content`: the children (none, static, or a function of `{percent}`).
- `SvgProps`: the props, their defaults, and `WithDefaults`.
- `Render`: the two circles, the ordered children of the drawing surface, and the whole drawing.

All numbers are exact `real`s. The formatted attribute values are datatypes, not strings:

- `${v}%` is `Pct(v)`;
- `x${i}` and `y${i}` are `XKey(i)` and `YKey(i)`;
- `url(#progressGrad)` is `UrlRef("progressGrad")`.

The component is a pure function of its props, so rendering the same props
twice gives the same drawing. In Dafny this holds by construction:
`Render` is a function.

Behaviour of the code worth noting:

- A tick at 0 degrees with `size = 100` and `progressBarWidth = 20` runs from
  (100, 50) to (80, 50), which is `Scale.TickAtZeroDegrees`. The outer end is
  at `size/2 + radius + width/2`.
- Only an `undefined` prop takes its default. In the model, a prop is either
  absent (`undefined`) or given a value. A `null` prop is not modelled.
- An empty stop list is still a gradient. `typeof [] !== 'string'`, so it gives
  a `progressGrad` definition with no stops and no attributes, and the
  progress stroke refers to it.
- Nothing is clamped. `percent`, `gapAngle` and a bar wider than `size` go
  straight into the arithmetic. A negative radius, a negative dash length or a
  length beyond the visible arc are all modelled as the code computes them
  (`Arc.Radius`, `Arc.ProgressNotClamped`).

## Model

| member | source | states |
|---|---|---|
| `SvgProps.WithDefaults` | src/svgProgress.tsx:8-24 | each absent prop takes its default (percent 1, gapAngle 90, bar width 15, bar colour `#2C40F3`, background `#F5F5F4`, fill `none`, opacity 1, scale width 2, colour `#2a2a2a`, opacity 0.1); present props are kept; `scaleAngles` and children have no default |
| `Arc.Radius` | src/svgProgress.tsx:26 | radius plus half the bar width is half the size; the radius is negative exactly when the bar is wider than the size (no floor) |
| `Arc.Circumference` | src/svgProgress.tsx:27 | dividing by 2π gives back the radius; the circumference is positive or zero exactly when the radius is |
| `Arc.GapLength` | src/svgProgress.tsx:31 | gap · 360 = gapAngle · circumference for every input; so on a non-degenerate circle the gap is the fraction gapAngle/360 of the circumference |
| `Arc.BackgroundDash` | src/svgProgress.tsx:30-33 | the drawn and skipped lengths add up to the circumference; the skip is the gap length, the drawn part the (360 - gapAngle)/360 fraction |
| `Arc.BackgroundSpansDegrees` | src/svgProgress.tsx:31-33 | for a non-zero radius the visible arc spans 360 - gapAngle degrees and the gap gapAngle degrees |
| `Arc.ProgressDash` | src/svgProgress.tsx:51-54 | the progress dash pair also adds up to the circumference, and its drawn length is percent/100 of the background's visible length, for every real percent |
| `Arc.ProgressAtZero` | src/svgProgress.tsx:53-54 | percent 0 draws nothing and skips the whole circle |
| `Arc.ProgressAtFull` | src/svgProgress.tsx:31-54 | percent 100 gives exactly the background's dash pair |
| `Arc.VisibleLengthNonNegative` | src/svgProgress.tsx:26-32 | a non-negative radius and a gap of at most 360 degrees give a non-negative visible length |
| `Arc.ProgressMonotone` | src/svgProgress.tsx:52-53 | when the visible length is non-negative, the progress length is non-decreasing in percent |
| `Arc.ProgressWithinVisible` | src/svgProgress.tsx:52-54 | for percent in [0, 100] the progress length lies between 0 and the visible length, and its skip covers at least the gap |
| `Arc.ProgressNotClamped` | src/svgProgress.tsx:53 | with a positive visible length, a negative percent gives a negative length and a percent above 100 a length beyond the visible arc |
| `Arc.ArcRotation` | src/svgProgress.tsx:46 | rotation about (size/2, size/2) that puts the gap's middle at 90 degrees (the bottom) |
| `Scale.Radians` | src/svgProgress.tsx:76 | converting back (divide by π, multiply by 180) gives the angle in degrees |
| `Scale.Ticks` | src/svgProgress.tsx:73-95 | no list when the angles are absent; otherwise one tick per angle, in the same order |
| `Scale.Tick` | src/svgProgress.tsx:76-81 | x1 - x2 is barWidth·cos θ and y1 - y2 is barWidth·sin θ; the midpoint is the point of the arcs' circle at θ; the tick carries the scale style |
| `Scale.TickIsRadial` | src/svgProgress.tsx:78-81 | the centre and both endpoints are collinear, for any cos and sin |
| `Scale.TickEndpointDistances` | src/svgProgress.tsx:76-81 | where cos²θ + sin²θ = 1, both endpoints lie on the ray at θ, at signed distances radius ± barWidth/2, at those distances from the centre, and the segment is barWidth long |
| `Scale.TickAtZeroDegrees` | src/svgProgress.tsx:73-81 | size 100, bar 20, angle 0 (cos 0 = 1, sin 0 = 0): the tick is (100, 50) to (80, 50) |
| `Gradient.AttrKeysMember` | src/svgProgress.tsx:100-104 | the key set for n stops holds exactly x1..xn and y1..yn |
| `Gradient.AttrKeysCount` | src/svgProgress.tsx:100-104 | there are exactly 2n keys |
| `Gradient.GradientAttrs` | src/svgProgress.tsx:100-104 | keys exactly x1..xn, y1..yn; x_i is the i-th stop's position as a percentage, y_i is 0% |
| `Gradient.GradientAttrsSize` | src/svgProgress.tsx:100-104 | the attribute map has 2n entries |
| `Gradient.GradientAttrsSnoc` | src/svgProgress.tsx:100-103 | one more stop adds exactly its x- and y-attribute |
| `Gradient.LinearGradientProps` | src/svgProgress.tsx:100-104 | the accumulating loop produces exactly the declarative attribute map |
| `Gradient.StopEntries` | src/svgProgress.tsx:108-110 | one stop entry per pair, same index, offset = position%, colour kept, opacity "1" |
| `Gradient.StopEntriesConcat` | src/svgProgress.tsx:108-110 | entries of a concatenation are the concatenation of entries: no sorting, no dedup |
| `Gradient.AttrsMatchStops` | src/svgProgress.tsx:100-110 | x_i and the (i-1)-th stop's offset are the same value |
| `Gradient.Defs` | src/svgProgress.tsx:97-114 | no definition for a solid colour; for any stop list (even empty) the gradient `progressGrad` whose attributes are exactly `GradientAttrs` (x_i = pos%, y_i = 0%) and whose stops are exactly `StopEntries`, in input order |
| `Gradient.ProgressStroke` | src/svgProgress.tsx:61 | a solid colour is used literally; the stroke is a gradient reference exactly when a definition exists, and it names that definition's id |
| `Gradient.ThreeStopGradient` | src/svgProgress.tsx:97-110 | stops 0/#fff, 50/#000, 100/#f00 give x1=0%, x2=50%, x3=100%, all y=0%, and the three stops in order |
| `Content.ResolveContent` | src/svgProgress.tsx:116-121 | a function child is applied to `{percent}`; a static child is returned unchanged; no child gives nothing |
| `Content.StaticContentIgnoresPercent` | src/svgProgress.tsx:116-121 | a non-function child resolves the same whatever the percent |
| `Content.DynamicContentSeesPercent` | src/svgProgress.tsx:117-118 | a function child receives exactly the percent it is resolved with |
| `Render.ConfigRadius` | src/svgProgress.tsx:26 | for the defaulted props, radius plus half the bar width is half the size |
| `Render.ConfigCircumference` | src/svgProgress.tsx:27 | for the defaulted props, dividing the circumference by 2π gives back the radius |
| `Render.BackgroundCircle` | src/svgProgress.tsx:30-49 | the background circle's dash covers the circumference and is exactly the background pair (visible length, gap length) of the defaulted props; it is stroked with the background colour |
| `Render.ProgressCircle` | src/svgProgress.tsx:51-71 | the progress circle's dash covers the circumference, draws percent/100 of the background's drawn length, and is stroked with the progress paint |
| `Render.ScaleTicks` | src/svgProgress.tsx:73-95 | no ticks when `scaleAngles` is absent; otherwise one tick per angle, in order, at the defaulted radius and bar width, with the scale colour, width and opacity |
| `Render.DefsChildren` | src/svgProgress.tsx:97-114 | a solid colour contributes no surface child; a stop list contributes exactly one definition node, holding its gradient |
| `Render.TickChildren` | src/svgProgress.tsx:73-95 | absent ticks contribute nothing; otherwise one line node per tick, in order |
| `Render.SurfaceChildren` | src/svgProgress.tsx:134-139 | children are, in this order, the gradient definition (only for a stop list), the background arc, the progress arc, and one line per tick |
| `Render.Render` | src/svgProgress.tsx:132-142 | container and surface are size × size with viewBox 0 0 size size; the surface holds the ordered children; the content is resolved with the defaulted percent |
| `Render.GradientDefinedBeforeUse` | src/svgProgress.tsx:135-137 | any circle stroked with a gradient reference comes after a definition with that id; a solid colour gives no definition at all |
| `Render.ArcsShareFrame` | src/svgProgress.tsx:36-68 | both circles have centre (size/2, size/2), the same radius and stroke width, and the rotation 90 + gapAngle/2 |
| `Render.PercentKeepsFrame` | src/svgProgress.tsx:30-95 | the background circle and the ticks do not depend on percent, and the progress circle depends on it only through its dash pattern |
| `Render.PercentMovesOnlyProgress` | src/svgProgress.tsx:30-71 | changing percent changes only the progress circle's dash pattern: definitions, background, ticks, rotation and stroke are unchanged |
| `Render.HalfProgressScenario` | src/svgProgress.tsx:26-71 | size 100, bar 20, gap 90, percent 50: radius 40, background dash (60π, 20π), progress dash (30π, 50π), both rotated 135 degrees about (50, 50) |

## Left out

- React, JSX, `View` and the react-native-svg primitives are not modelled. The output is plain records (`Drawing`, `Surface`, `Circle`, `Line`, `LinearGradient`).
- The container style merge (src/svgProgress.tsx:123-130) is not modelled. It relies on React Native's style arrays and on `./styles`, which is not part of this model. Only the container's `width = height = size` is kept. The caller's `style` would come last and is not modelled.
- The `svgProps` spread onto the surface (src/svgProgress.tsx:134) is not modelled. It comes after `viewBox`, `width` and `height`, so any of those keys in `svgProps` replaces the surface's value. `Render.Render`'s surface contract holds only when `svgProps` sets none of those keys.
- Some attributes are constants or pass-through values that the geometry does not compute, so they are not modelled:
  - `fill`, including the progress arc's `progressFillColor`;
  - `strokeLinecap`, `strokeDashoffset` and `key`;
  - the progress arc's `strokeOpacity` (`progressBarOpacity`).
  These props are still resolved with their defaults by `SvgProps.WithDefaults`.
- The text of `strokeDasharray` (`"a, b"`) and of `transform` (`rotate(a cx cy)`) is not modelled. The numbers are kept as `DashPair` and `Rotation`.
- IEEE floating point, and the real values of `Math.PI`, `Math.cos` and `Math.sin`, are not modelled. Arithmetic is exact. `pi` is any positive real, and `cos` and `sin` are any total functions. No trigonometric identity is used, except cos²θ + sin²θ = 1 where a lemma states it as a precondition.
