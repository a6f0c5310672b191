/** The series descriptor synthesiser: turns the style options of one
    series into the descriptor the renderer draws it with. */
module SeriesBuilder {
  import opened Wrappers
  import opened SeriesProps
  import opened PathBuilders

  /** The stroke colour used when a series has no line colour. */
  const FALLBACK_COLOR: string := "gray"

  /** The dash pattern used when a non-solid line style gives none. */
  const DEFAULT_DASH: seq<real> := [10.0, 10.0]

  /** A stroke or fill: a constant colour, or the result of one of the
      gradient and colour helpers, recorded with the arguments it was given
      (the colour math itself is not modelled). */
  datatype Paint =
    | Const(color: string)
    | ScaleGradient(weight: real, colorMode: Option<ColorMode>)
    | OpacityGradient(base: Option<string>, opacity: real)
    | HueGradient(base: Option<string>, opacity: real)
    | Alpha(color: string, opacity: real)

  /** The stroke and fill of the points: a colour, or a callback that reads
      the stroke the renderer resolved for the series. */
  datatype PointPaint = PointColor(color: string) | SeriesStroke

  /** The `paths` field: the caller's own builder, a callback that returns
      no path, or the deferred cache lookup with the arguments it captured. */
  datatype PathsFn = Custom(builder: Handler) | NoPath | Deferred(call: PathCall)

  datatype LineCap = Round

  /** `points.show`: the caller's callback or a flag. */
  datatype PointsShow = ShowCallback(callback: Handler) | ShowFlag(on: bool)

  /** The fields set on the line branch. `width` is `None` when the field is
      not written at all and `Some(None)` when it is written as undefined. */
  datatype LineSettings = LineSettings(
    width: Option<Option<real>>,
    dash: Option<seq<real>>,
    cap: Option<LineCap>,
    paths: Option<PathsFn>)

  /** `show` is `None` when the field is not written, which leaves the
      renderer's own default in force. */
  datatype PointsConfig = PointsConfig(
    stroke: PointPaint,
    fill: PointPaint,
    size: Option<real>,
    filter: Option<Handler>,
    show: Option<PointsShow>)

  /** The series descriptor. */
  datatype SeriesConfig = SeriesConfig(
    scale: string,
    spanGaps: Option<bool>,
    show: bool,
    fill: Option<Paint>,
    stroke: Paint,
    width: Option<Option<real>>,
    dash: Option<seq<real>>,
    cap: Option<LineCap>,
    paths: Option<PathsFn>,
    points: PointsConfig)

  /** JavaScript truthiness of an optional string: present and non-empty. */
  predicate Truthy(s: Option<string>) {
    s.Some? && s.value != ""
  }

  /** The colour source is the fixed colour (an absent source is not). */
  predicate IsFixedColor(colorMode: Option<ColorMode>) {
    colorMode.Some? && colorMode.value.id == FIXED_COLOR_MODE_ID
  }

  /** Colours come from the scheme gradient: gradient mode Scheme with a
      colour source that is not fixed. */
  predicate UsesScheme(p: Props) {
    p.gradientMode == Some(Scheme) && !IsFixedColor(p.colorMode)
  }

  /** The fill opacity as a fraction, 0 when unset. */
  function OpacityFraction(p: Props): (f: real)
    ensures f > 0.0 <==> p.fillOpacity.Some? && p.fillOpacity.value > 0.0
    ensures p.fillOpacity.None? ==> f == 0.0
  {
    p.fillOpacity.GetOr(0.0) / 100.0
  }

  /** The series stroke: the scale gradient at full weight when colours come
      from the scheme, otherwise the line colour or the fallback colour. */
  function GetLineColor(p: Props): (r: Paint)
    ensures r.Const? || r.ScaleGradient?
    ensures r.ScaleGradient? <==> UsesScheme(p)
    ensures r.ScaleGradient? ==> r.weight == 1.0 && r.colorMode == p.colorMode
    ensures r.Const? && p.lineColor.Some? ==> r.color == p.lineColor.value
    ensures r.Const? && p.lineColor.None? ==> r.color == FALLBACK_COLOR
  {
    if p.gradientMode == Some(Scheme) && !IsFixedColor(p.colorMode) then
      ScaleGradient(1.0, p.colorMode)
    else
      Const(p.lineColor.GetOr(FALLBACK_COLOR))
  }

  /** The colour the opacity and hue gradients start from: the fill colour
      when it is defined (here it can only be the empty string) or else the
      line colour. */
  function GradientBase(p: Props): (c: Option<string>)
    requires !Truthy(p.fillColor)
    ensures p.fillColor.None? ==> c == p.lineColor
    ensures p.fillColor.Some? ==> c == Some("")
  {
    if p.fillColor.Some? then p.fillColor else p.lineColor
  }

  /** The default branch of the fill, shared by gradient mode None (or unset)
      and by Scheme with a fixed colour source: the line colour at the fill
      opacity when that is positive, otherwise no fill. */
  function DefaultFill(lineColor: Option<string>, opacity: real): (r: Option<Paint>)
    ensures r.Some? <==> opacity > 0.0
    ensures r.Some? ==> r.value.Alpha? && r.value.opacity == opacity
    ensures r.Some? && lineColor.Some? ==> r.value.color == lineColor.value
    ensures r.Some? && lineColor.None? ==> r.value.color == ""
  {
    if opacity > 0.0 then Some(Alpha(lineColor.GetOr(""), opacity)) else None
  }

  /** The series fill, by precedence: a truthy fill colour verbatim; then
      the opacity or hue gradient; then, for Scheme with a colour source that
      is not fixed, the scale gradient weighted by the opacity; everything
      else takes the default branch. */
  function GetFill(p: Props): (r: Option<Paint>)
    ensures Truthy(p.fillColor) ==> r == Some(Const(p.fillColor.value))
    ensures !Truthy(p.fillColor) && p.gradientMode == Some(Opacity) ==>
      r == Some(OpacityGradient(GradientBase(p), OpacityFraction(p)))
    ensures !Truthy(p.fillColor) && p.gradientMode == Some(Hue) ==>
      r == Some(HueGradient(GradientBase(p), OpacityFraction(p)))
    ensures !Truthy(p.fillColor) && UsesScheme(p) ==>
      r == Some(ScaleGradient(OpacityFraction(p), p.colorMode))
    ensures !Truthy(p.fillColor) && p.gradientMode != Some(Opacity) && p.gradientMode != Some(Hue)
            && !UsesScheme(p) ==>
      r == DefaultFill(p.lineColor, OpacityFraction(p))
    ensures r.None? <==>
      && !Truthy(p.fillColor)
      && p.gradientMode != Some(Opacity) && p.gradientMode != Some(Hue) && !UsesScheme(p)
      && !(p.fillOpacity.Some? && p.fillOpacity.value > 0.0)
  {
    if Truthy(p.fillColor) then Some(Const(p.fillColor.value))
    else
      var opacity := OpacityFraction(p);
      match p.gradientMode.GetOr(NoGradient)
      case Opacity => Some(OpacityGradient(GradientBase(p), opacity))
      case Hue => Some(HueGradient(GradientBase(p), opacity))
      case Scheme =>
        if !IsFixedColor(p.colorMode) then Some(ScaleGradient(opacity, p.colorMode))
        else DefaultFill(p.lineColor, opacity)
      case NoGradient => DefaultFill(p.lineColor, opacity)
  }

  /** A line style that asks for a dash pattern: present with a fill that is
      not solid (an unset fill counts). */
  predicate Dashed(lineStyle: Option<LineStyle>) {
    lineStyle.Some? && lineStyle.value.fill != Some(Solid)
  }

  /** The series connects its points with a path: drawn as a line or bars. */
  predicate Connected(p: Props) {
    p.drawStyle.Some? && !p.drawStyle.value.Points?
  }

  /** The line branch: a caller's path builder wins and carries the line
      width; points-only series get a path callback that draws nothing and no
      width; lines and bars get the width, a dash pattern and round caps as
      the line style asks, and a deferred cache lookup; a series with
      neither a builder nor a draw style sets none of these. */
  function GetLineSettings(p: Props): (r: LineSettings)
    ensures p.pathBuilder.Some? ==>
      r == LineSettings(Some(p.lineWidth), None, None, Some(Custom(p.pathBuilder.value)))
    ensures p.pathBuilder.None? && p.drawStyle == Some(Points) ==>
      r == LineSettings(None, None, None, Some(NoPath))
    ensures p.pathBuilder.None? && p.drawStyle.None? ==>
      r == LineSettings(None, None, None, None)
    ensures p.pathBuilder.None? && Connected(p) ==>
      && r.width == Some(p.lineWidth)
      && r.paths == Some(Deferred(PathCall(p.drawStyle.value, p.lineInterpolation, p.barAlignment,
                                           p.barWidthFactor, p.barMaxWidth)))
    ensures r.dash.Some? <==> p.pathBuilder.None? && Connected(p) && Dashed(p.lineStyle)
    ensures r.dash.Some? ==> r.dash.value == p.lineStyle.value.dash.GetOr(DEFAULT_DASH)
    ensures r.cap.Some? <==> r.dash.Some? && p.lineStyle.value.fill == Some(Dot)
    ensures r.paths.None? <==> p.pathBuilder.None? && p.drawStyle.None?
  {
    if p.pathBuilder.Some? then
      LineSettings(Some(p.lineWidth), None, None, Some(Custom(p.pathBuilder.value)))
    else if p.drawStyle == Some(Points) then
      LineSettings(None, None, None, Some(NoPath))
    else if p.drawStyle.Some? then
      var dashed := p.lineStyle.Some? && p.lineStyle.value.fill != Some(Solid);
      var cap := if dashed && p.lineStyle.value.fill == Some(Dot) then Some(Round) else None;
      var dash := if dashed then Some(p.lineStyle.value.dash.GetOr(DEFAULT_DASH)) else None;
      var call := PathCall(p.drawStyle.value, p.lineInterpolation, p.barAlignment,
                           p.barWidthFactor, p.barMaxWidth);
      LineSettings(Some(p.lineWidth), dash, cap, Some(Deferred(call)))
    else
      LineSettings(None, None, None, None)
  }

  /** Point visibility, first match wins: the caller's callback; points-only
      series always show points; Auto hides them for bars and otherwise
      leaves the renderer's default; Never hides; Always shows; an unset
      option leaves the default. */
  function PointsVisibility(p: Props): (r: Option<PointsShow>)
    ensures p.pointsBuilder.Some? ==> r == Some(ShowCallback(p.pointsBuilder.value))
    ensures r == Some(ShowFlag(true)) <==>
      p.pointsBuilder.None? && (p.drawStyle == Some(Points) || p.showPoints == Some(Always))
    ensures r == Some(ShowFlag(false)) <==>
      && p.pointsBuilder.None? && p.drawStyle != Some(Points)
      && (p.showPoints == Some(Never) || (p.showPoints == Some(Auto) && p.drawStyle == Some(Bars)))
    ensures r.None? <==>
      && p.pointsBuilder.None? && p.drawStyle != Some(Points)
      && (p.showPoints.None? || (p.showPoints == Some(Auto) && p.drawStyle != Some(Bars)))
  {
    if p.pointsBuilder.Some? then Some(ShowCallback(p.pointsBuilder.value))
    else if p.drawStyle == Some(Points) then Some(ShowFlag(true))
    else
      match p.showPoints
      case Some(Auto) => if p.drawStyle == Some(Bars) then Some(ShowFlag(false)) else None
      case Some(Never) => Some(ShowFlag(false))
      case Some(Always) => Some(ShowFlag(true))
      case None => None
  }

  /** `spanGaps`: a numeric threshold becomes false, a flag or an unset
      option passes through. */
  function SpanGaps(spanNulls: Option<SpanNulls>): (r: Option<bool>)
    ensures r.None? <==> spanNulls.None?
    ensures r == Some(true) <==> spanNulls == Some(SpanFlag(true))
  {
    match spanNulls
    case None => None
    case Some(SpanThreshold(_)) => Some(false)
    case Some(SpanFlag(b)) => Some(b)
  }

  /** The points' stroke and fill: the series stroke when it is a colour,
      otherwise a callback reading the stroke the renderer resolved. */
  function PointPaintFor(stroke: Paint): (r: PointPaint)
    ensures r.PointColor? <==> stroke.Const?
    ensures r.PointColor? ==> r.color == stroke.color
  {
    if stroke.Const? then PointColor(stroke.color) else SeriesStroke
  }

  /** The descriptor of one series. */
  function GetConfig(p: Props): (r: SeriesConfig)
    ensures r.scale == p.scaleKey
    ensures r.show <==> p.show != Some(false)
    ensures r.spanGaps == SpanGaps(p.spanNulls)
    ensures r.stroke == GetLineColor(p)
    ensures r.fill == GetFill(p)
    ensures var line := GetLineSettings(p);
      r.width == line.width && r.dash == line.dash && r.cap == line.cap && r.paths == line.paths
    ensures r.points.stroke == r.points.fill == PointPaintFor(r.stroke)
    ensures r.points.size == p.pointSize && r.points.filter == p.pointsFilter
    ensures r.points.show == PointsVisibility(p)
  {
    var stroke := GetLineColor(p);
    var line := GetLineSettings(p);
    var pointPaint := PointPaintFor(stroke);
    SeriesConfig(
      p.scaleKey,
      SpanGaps(p.spanNulls),
      p.show.GetOr(true),
      GetFill(p),
      stroke,
      line.width, line.dash, line.cap, line.paths,
      PointsConfig(pointPaint, pointPaint, p.pointSize, p.pointsFilter, PointsVisibility(p)))
  }

  // Properties relating several inputs

  /** A truthy fill colour is the fill whatever the gradient mode, colour
      source and opacity. */
  lemma FillColorWins(p: Props, mode: Option<GradientMode>, colorMode: Option<ColorMode>, opacity: Option<real>)
    requires Truthy(p.fillColor)
    ensures GetFill(p.(gradientMode := mode, colorMode := colorMode, fillOpacity := opacity)) == Some(Const(p.fillColor.value))
  {
  }

  /** Scheme with a fixed colour source fills exactly as gradient mode None
      and as an unset gradient mode do. */
  lemma SchemeWithFixedColorFallsThrough(p: Props)
    requires p.gradientMode == Some(Scheme) && IsFixedColor(p.colorMode)
    ensures GetFill(p) == GetFill(p.(gradientMode := Some(NoGradient)))
    ensures GetFill(p) == GetFill(p.(gradientMode := None))
  {
  }

  /** With scheme colours, stroke and fill come from the same scale
      gradient, at full weight and at the fill opacity, and the points read
      the stroke the renderer resolved. */
  lemma SchemeColorsShareGradient(p: Props)
    requires UsesScheme(p) && !Truthy(p.fillColor)
    ensures GetConfig(p).stroke == ScaleGradient(1.0, p.colorMode)
    ensures GetConfig(p).fill == Some(ScaleGradient(OpacityFraction(p), p.colorMode))
    ensures GetConfig(p).points.stroke == GetConfig(p).points.fill == SeriesStroke
  {
  }

  /** Without scheme colours, the series and its points are stroked with
      the line colour, or the fallback colour when there is none. */
  lemma PlainColorsUseLineColor(p: Props)
    requires !UsesScheme(p)
    ensures GetConfig(p).stroke == Const(p.lineColor.GetOr(FALLBACK_COLOR))
    ensures GetConfig(p).points.stroke == GetConfig(p).points.fill == PointColor(p.lineColor.GetOr(FALLBACK_COLOR))
  {
  }

  /** A red step-after line of width 2 without fill. */
  lemma StepAfterLineExample()
    ensures var p := Props("y", Some(Line), Some(StepAfter), Some(2.0), None, Some("#ff0000"),
                           None, None, None, None, None, None, Some(0.0), Some(NoGradient),
                           None, None, None, None, None, None);
      var r := GetConfig(p);
      && r.stroke == Const("#ff0000") && r.fill == None && r.width == Some(Some(2.0))
      && r.paths.Some? && r.paths.value.Deferred? && CallKey(r.paths.value.call) == StepAfterEntry
  {
  }

  /** A points-only series shows its points whatever `showPoints` says,
      unless the caller supplies its own callback. */
  lemma PointsStyleOverridesShowPoints(p: Props, v: Option<PointVisibility>)
    requires p.drawStyle == Some(Points) && p.pointsBuilder.None?
    ensures PointsVisibility(p.(showPoints := v)) == Some(ShowFlag(true))
  {
  }

  /** A series whose paths are looked up in the cache: its deferred call
      resolves to the entry the mapping table names for its draw style. */
  lemma DeferredPathsUseMappingTable(p: Props)
    requires p.pathBuilder.None? && Connected(p)
    ensures GetConfig(p).paths.Some? && GetConfig(p).paths.value.Deferred?
    ensures var k := CallKey(GetConfig(p).paths.value.call);
      && (p.drawStyle == Some(Bars) ==>
            k == BarsEntry(BarKey(p.barAlignment.GetOr(DEFAULT_BAR_ALIGNMENT),
                                  p.barWidthFactor.GetOr(DEFAULT_BAR_WIDTH_FACTOR),
                                  p.barMaxWidth.GetOr(Infinity))))
      && (p.drawStyle == Some(Line) && p.lineInterpolation == Some(StepAfter) ==> k == StepAfterEntry)
      && (p.drawStyle == Some(Line) && p.lineInterpolation == Some(StepBefore) ==> k == StepBeforeEntry)
      && (p.drawStyle == Some(Line) && p.lineInterpolation == Some(Smooth) ==> k == SmoothEntry)
      && (p.drawStyle == Some(Line) && (p.lineInterpolation.None? || p.lineInterpolation == Some(Linear)) ==>
            k == LinearEntry)
    ensures CallKey(GetConfig(p).paths.value.call)
            == KeyFor(p.drawStyle.value, p.lineInterpolation, p.barAlignment, p.barWidthFactor, p.barMaxWidth)
  {
  }

  /** Two bar series drawn one after the other share the cached bar builder
      exactly when their bar geometry, with defaults filled in, is the same;
      the second draw constructs nothing when it is. */
  lemma BarSeriesShareBuilderIffSameGeometry(p: Props, q: Props, s: CacheState)
    requires Inv(s)
    requires p.pathBuilder.None? && q.pathBuilder.None?
    requires p.drawStyle == Some(Bars) && q.drawStyle == Some(Bars)
    ensures var (s1, b1) := Resolve(s, CallKey(GetConfig(p).paths.value.call));
      var (s2, b2) := Resolve(s1, CallKey(GetConfig(q).paths.value.call));
      && (b1 == b2 <==>
            p.barAlignment.GetOr(DEFAULT_BAR_ALIGNMENT) == q.barAlignment.GetOr(DEFAULT_BAR_ALIGNMENT) &&
            p.barWidthFactor.GetOr(DEFAULT_BAR_WIDTH_FACTOR) == q.barWidthFactor.GetOr(DEFAULT_BAR_WIDTH_FACTOR) &&
            p.barMaxWidth.GetOr(Infinity) == q.barMaxWidth.GetOr(Infinity))
      && (b1 == b2 ==> s2 == s1)
  {
    var kp := CallKey(GetConfig(p).paths.value.call);
    var kq := CallKey(GetConfig(q).paths.value.call);
    var (s1, b1) := Resolve(s, kp);
    ResolveKeepsInv(s, kp);
    ResolveKeepsInv(s1, kq);
    var (s2, b2) := Resolve(s1, kq);
    assert s2.builders.value[kp] == b1;
    DistinctEntriesDistinctInstances(s2, kp, kq);
  }
}
