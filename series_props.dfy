/** The style options one series is configured with: the input record of
    the series builder and the enumerations it branches on. */
module SeriesProps {
  import opened Wrappers

  /** How a series is drawn. */
  datatype DrawStyle = Line | Bars | Points

  /** How consecutive points of a line are joined. */
  datatype LineInterpolation = Linear | Smooth | StepBefore | StepAfter

  /** When the individual data points are shown. */
  datatype PointVisibility = Auto | Never | Always

  /** How the colour varies across the value range; `NoGradient` is the
      schema's `none`. */
  datatype GradientMode = NoGradient | Opacity | Hue | Scheme

  /** The dash pattern family of a line. */
  datatype LineFill = Solid | Dash | Dot | Square

  datatype LineStyle = LineStyle(fill: Option<LineFill>, dash: Option<seq<real>>)

  /** The colour source of a field; only its id is inspected. */
  datatype ColorMode = ColorMode(id: string)

  /** The id of the fixed-colour source. */
  const FIXED_COLOR_MODE_ID: string := "fixed"

  /** `spanNulls` is either a flag or a numeric gap threshold. */
  datatype SpanNulls = SpanFlag(flag: bool) | SpanThreshold(limit: real)

  /** A bar's maximum width in pixels; unbounded by default. */
  datatype MaxWidth = Finite(px: real) | Infinity

  /** An opaque, caller-supplied renderer callback (a path builder, a points
      filter or a points-show callback), known only by its identity. */
  type Handler = nat

  /** The options of one series. Theme, thresholds, pixel alignment, the
      data-frame index and the value formatter are pass-throughs that the
      decisions below never read, and are not part of the record. */
  datatype Props = Props(
    scaleKey: string,
    drawStyle: Option<DrawStyle>,
    lineInterpolation: Option<LineInterpolation>,
    lineWidth: Option<real>,
    lineStyle: Option<LineStyle>,
    lineColor: Option<string>,
    barAlignment: Option<int>,
    barWidthFactor: Option<real>,
    barMaxWidth: Option<MaxWidth>,
    showPoints: Option<PointVisibility>,
    pointSize: Option<real>,
    fillColor: Option<string>,
    fillOpacity: Option<real>,
    gradientMode: Option<GradientMode>,
    colorMode: Option<ColorMode>,
    spanNulls: Option<SpanNulls>,
    show: Option<bool>,
    pathBuilder: Option<Handler>,
    pointsFilter: Option<Handler>,
    pointsBuilder: Option<Handler>)
}
