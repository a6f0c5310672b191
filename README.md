# Series config builder and path-builder cache

A Dafny model of Grafana's uPlot series builder
(`packages/grafana-ui/src/components/uPlot/config/UPlotSeriesBuilder.ts`). The
builder turns the style options of one chart series into the series descriptor
that the uPlot renderer draws. The descriptor holds the stroke, the fill, the
path function, the line width, dash and cap, and the point settings. Path
builders come from a grow-only cache.

Modules:

- `Wrappers` (`wrappers.dfy`): `Option`. Here `None` stands for a JavaScript
  `undefined`.
- `SeriesProps` (`series_props.dfy`): the input record `Props` and the
  enumerations it branches on (draw style, interpolation, point visibility,
  gradient mode, line fill).
- `PathBuilders` (`path_builders.dfy`): the path-builder cache.
  - `KeyFor` is the mapping table from a draw style and its options to a cache
    entry.
  - `Resolve` specifies one lookup on an abstract `CacheState`. The state is
    the table, which is `None` until first use, plus the log of every renderer
    constructor call.
  - `Inv` is the cache invariant. The lemmas relate runs of many lookups.
  - The class `BuilderCache` is the imperative cache. `builders` is its map
    field, and it owns a `RendererPaths` object that stands for `uPlot.paths`.
    Each constructor call returns a fresh id, which is the call's position in
    the log. "Same instance" is therefore equality of ids.
- `SeriesBuilder` (`series_builder.dfy`): `getLineColor`, `getFill` and
  `getConfig` as pure functions. Colour and gradient helper results are tagged
  values that record their arguments. The deferred `paths` closure is the value
  `Deferred(PathCall(…))`, which records the captured arguments.
  `BuilderCache.InvokeDeferred` runs it through the cache.

Decisions worth knowing:

- **Truthiness.** `if (fillColor)` treats an empty string as absent, and the
  model does too. In the Opacity and Hue branches, `fillColor ?? lineColor`
  therefore yields `""` when the fill colour is the empty string, and yields
  the line colour only when the fill colour is undefined (`GradientBase`).
- **Written as undefined.** A field written as `undefined` is distinct from a
  field not written. This matters for `width`, which the model types as
  `Option<Option<real>>`. It also matters for `points.show`, which is `None`
  only when the field is not written.
- **Unset draw style.** When neither `pathBuilder` nor `drawStyle` is
  given, the descriptor has no `paths` and no `width`
  (`UPlotSeriesBuilder.ts` lines 71-94; `GetLineSettings`).

## Model

| member | source | states |
|---|---|---|
| `PathBuilders.KeyFor` | packages/grafana-ui/src/components/uPlot/config/UPlotSeriesBuilder.ts:190-233 | The mapping is total. Bars select the bar entry for (alignment ?? 0, widthFactor ?? 0.6, maxWidth ?? Infinity). Line with StepBefore, StepAfter or Smooth selects that entry. Every other combination, including Points and Line with Linear or no interpolation, selects linear (each case is an if-and-only-if). |
| `PathBuilders.ShapeOf` | packages/grafana-ui/src/components/uPlot/config/UPlotSeriesBuilder.ts:201-217 | Each entry is built by its own constructor call: linear, spline, stepped at -1 and at 1, and bars with size [widthFactor, maxWidth] and the alignment. Distinct entries are built by distinct calls. |
| `PathBuilders.Loaded` | packages/grafana-ui/src/components/uPlot/config/UPlotSeriesBuilder.ts:199-207 | The four fixed builders are constructed, in one batch and in that order, only when the table is undefined. Otherwise the cache is unchanged. |
| `PathBuilders.Resolve` | packages/grafana-ui/src/components/uPlot/config/UPlotSeriesBuilder.ts:199-233 | A lookup returns the entry for its key. It adds the fixed four on first use and the key if absent, and nothing else. It never changes an existing entry and only appends to the constructor log. It changes nothing exactly when the key is already present. |
| `PathBuilders.LoadedKeepsInv` | packages/grafana-ui/src/components/uPlot/config/UPlotSeriesBuilder.ts:199-207 | The first batch establishes the invariant: every entry is the instance built for its key, and every instance built is in the table. |
| `PathBuilders.InsertKeepsInv` | packages/grafana-ui/src/components/uPlot/config/UPlotSeriesBuilder.ts:213-218 | Building and inserting an absent bar key keeps the invariant. |
| `PathBuilders.ResolveKeepsInv` | packages/grafana-ui/src/components/uPlot/config/UPlotSeriesBuilder.ts:188-233 | Every lookup keeps the invariant. |
| `PathBuilders.DistinctEntriesDistinctInstances` | packages/grafana-ui/src/components/uPlot/config/UPlotSeriesBuilder.ts:209-220 | Under the invariant, two entries hold the same instance if and only if they are the same key. Bar keys never share a builder with each other or with the fixed four. |
| `PathBuilders.RunKeepsInv` | packages/grafana-ui/src/components/uPlot/config/UPlotSeriesBuilder.ts:188-233 | Any sequence of lookups keeps the invariant. |
| `PathBuilders.RunEntries` | packages/grafana-ui/src/components/uPlot/config/UPlotSeriesBuilder.ts:199-220 | After a sequence of lookups, the table holds exactly the entries it held before, the fixed four (on a cache's first use) and every key looked up. The table only grows. |
| `PathBuilders.RunKeepsEntries` | packages/grafana-ui/src/components/uPlot/config/UPlotSeriesBuilder.ts:213-220 | An entry present before a sequence of lookups keeps its instance: entries are never overwritten. |
| `PathBuilders.RunReturnsFinalEntry` | packages/grafana-ui/src/components/uPlot/config/UPlotSeriesBuilder.ts:209-233 | Every lookup in a sequence returned the instance that the table holds for its key at the end. |
| `PathBuilders.SameInstanceIffSameKey` | packages/grafana-ui/src/components/uPlot/config/UPlotSeriesBuilder.ts:209-220 | Within a sequence of lookups, two lookups return the identical instance if and only if they asked for the same key. A repeated bar tuple shares its builder, and distinct tuples never do. |
| `PathBuilders.ConstructionsPerDistinctKey` | packages/grafana-ui/src/components/uPlot/config/UPlotSeriesBuilder.ts:199-218 | From an unused cache, no constructor call is ever repeated. The fixed four and every key looked up are built, and nothing else is. So the fixed four are built once per lifetime and each bar tuple once. |
| `PathBuilders.RepeatedLookupIsIdentical` | packages/grafana-ui/src/components/uPlot/config/UPlotSeriesBuilder.ts:213-220 | A second lookup of the same key returns the same instance and constructs nothing. |
| `PathBuilders.RendererPaths.Build` | packages/grafana-ui/src/components/uPlot/config/UPlotSeriesBuilder.ts:197-217 | A renderer constructor call returns a new instance and is appended to the log. |
| `PathBuilders.BuilderCache.constructor` | packages/grafana-ui/src/components/uPlot/config/UPlotSeriesBuilder.ts:188 | The cache starts undefined, and nothing has been constructed. |
| `PathBuilders.BuilderCache.LoadFixed` | packages/grafana-ui/src/components/uPlot/config/UPlotSeriesBuilder.ts:199-207 | The new state is `Loaded` of the old one: the batch is built only while `builders` is undefined. The cache invariant is kept. |
| `PathBuilders.BuilderCache.BarBuilder` | packages/grafana-ui/src/components/uPlot/config/UPlotSeriesBuilder.ts:209-220 | The new state and the result are `Resolve` of the old state for that bar key: a bar builder is constructed only if its key is absent. The cache invariant is kept. |
| `PathBuilders.BuilderCache.MapDrawStyleToPathBuilder` | packages/grafana-ui/src/components/uPlot/config/UPlotSeriesBuilder.ts:190-234 | The cache keeps its invariant. The new state and the returned builder are `Resolve` of the old state at `KeyFor` of the arguments. |
| `PathBuilders.BuilderCache.InvokeDeferred` | packages/grafana-ui/src/components/uPlot/config/UPlotSeriesBuilder.ts:84-93 | Running the deferred `paths` closure is the cache lookup with the arguments it captured. |
| `SeriesBuilder.OpacityFraction` | packages/grafana-ui/src/components/uPlot/config/UPlotSeriesBuilder.ts:158 | The opacity fraction is positive exactly when `fillOpacity` is set and positive, and it is 0 when unset. |
| `SeriesBuilder.GetLineColor` | packages/grafana-ui/src/components/uPlot/config/UPlotSeriesBuilder.ts:140-148 | The stroke is the scale gradient at weight 1 exactly when the gradient mode is Scheme and the colour source is not fixed; an absent source counts as not fixed. Otherwise the stroke is the constant `lineColor`, or the fallback colour when that is undefined. |
| `SeriesBuilder.GradientBase` | packages/grafana-ui/src/components/uPlot/config/UPlotSeriesBuilder.ts:162 | The colour the opacity and hue gradients start from is the line colour when the fill colour is undefined, and `""` when the fill colour is the empty string. |
| `SeriesBuilder.DefaultFill` | packages/grafana-ui/src/components/uPlot/config/UPlotSeriesBuilder.ts:170-176 | The shared default branch. It gives `alpha(lineColor ?? '', pct)` exactly when the fraction is positive, and no fill otherwise. |
| `SeriesBuilder.GetFill` | packages/grafana-ui/src/components/uPlot/config/UPlotSeriesBuilder.ts:150-177 | The precedence chain. A truthy `fillColor` is returned verbatim. Otherwise Opacity and Hue give their gradients at the fraction, and Scheme with a colour source that is not fixed gives the scale gradient at the fraction. Every other case (None, an unset mode, Scheme with a fixed colour source) is `DefaultFill` of `lineColor` at the fraction, that is `alpha(lineColor ?? '', fraction)` when the fraction is positive. There is no fill if and only if none of the gradients apply and `fillOpacity` is not positive. |
| `SeriesBuilder.GetLineSettings` | packages/grafana-ui/src/components/uPlot/config/UPlotSeriesBuilder.ts:71-94 | A supplied `pathBuilder` wins, with `width = lineWidth`. Points gives a path that draws nothing and no width. Line or Bars gives the width and a deferred lookup of its own arguments. Dash is set if and only if the style is Line or Bars and `lineStyle` is present and not solid, to `dash ?? [10,10]`. Cap is set if and only if, in addition, the fill is `dot`. `paths` is unset if and only if neither a builder nor a draw style is given. |
| `SeriesBuilder.PointsVisibility` | packages/grafana-ui/src/components/uPlot/config/UPlotSeriesBuilder.ts:109-126 | A supplied `pointsBuilder` wins. Otherwise `show = true` if and only if the style is Points or `showPoints` is Always. `show = false` if and only if the style is not Points and `showPoints` is Never, or is Auto with Bars. `show` is unset if and only if the style is not Points and `showPoints` is unset, or is Auto without Bars. |
| `SeriesBuilder.SpanGaps` | packages/grafana-ui/src/components/uPlot/config/UPlotSeriesBuilder.ts:130 | `spanGaps` is unset exactly when `spanNulls` is unset, and it is true exactly when `spanNulls` is the flag true. A numeric threshold gives false. |
| `SeriesBuilder.PointPaintFor` | packages/grafana-ui/src/components/uPlot/config/UPlotSeriesBuilder.ts:96-98 | The points reuse the stroke colour exactly when the stroke is a string. Otherwise they use the callback that reads the series' resolved stroke. |
| `SeriesBuilder.GetConfig` | packages/grafana-ui/src/components/uPlot/config/UPlotSeriesBuilder.ts:44-137 | `scale = scaleKey`. `show` is false only when set to false. The stroke is `GetLineColor`, and the fill is `GetFill`, which the spread line and points configs do not overwrite. Width, dash, cap and paths come from the line branch. Points stroke and fill are equal and follow the stroke. Point size and filter are copied, and point visibility follows the tri-state rule. |
| `SeriesBuilder.FillColorWins` | packages/grafana-ui/src/components/uPlot/config/UPlotSeriesBuilder.ts:153-155 | A truthy fill colour is the fill whatever the gradient mode, colour source and opacity. |
| `SeriesBuilder.SchemeWithFixedColorFallsThrough` | packages/grafana-ui/src/components/uPlot/config/UPlotSeriesBuilder.ts:165-174 | Scheme with a fixed colour source fills exactly as gradient mode None does, and exactly as an unset gradient mode does. |
| `SeriesBuilder.SchemeColorsShareGradient` | packages/grafana-ui/src/components/uPlot/config/UPlotSeriesBuilder.ts:140-177 | With scheme colours and no fill colour, stroke and fill are the same scale gradient, at weight 1 and at the opacity fraction, and the points read the resolved stroke. |
| `SeriesBuilder.PlainColorsUseLineColor` | packages/grafana-ui/src/components/uPlot/config/UPlotSeriesBuilder.ts:96-148 | Without scheme colours, the series and its points are stroked with `lineColor ?? FALLBACK_COLOR`. |
| `SeriesBuilder.StepAfterLineExample` | packages/grafana-ui/src/components/uPlot/config/UPlotSeriesBuilder.ts:61-137 | A red step-after line of width 2 with opacity 0 has a red stroke, no fill and width 2, and its paths resolve to the step-after entry. |
| `SeriesBuilder.PointsStyleOverridesShowPoints` | packages/grafana-ui/src/components/uPlot/config/UPlotSeriesBuilder.ts:113-114 | A Points series without a `pointsBuilder` shows its points whatever `showPoints` is. |
| `SeriesBuilder.DeferredPathsUseMappingTable` | packages/grafana-ui/src/components/uPlot/config/UPlotSeriesBuilder.ts:84-93 | For a Line or Bars series without its own builder, the deferred lookup resolves to the mapping-table entry. The key is exactly `KeyFor` of the series' draw style, interpolation and bar options: the bar key with defaults for Bars, the step and smooth entries for those interpolations, and `LinearEntry` for a Line with Linear or no interpolation. |
| `SeriesBuilder.BarSeriesShareBuilderIffSameGeometry` | packages/grafana-ui/src/components/uPlot/config/UPlotSeriesBuilder.ts:209-220 | Two Bars series drawn in turn get the identical builder if and only if their (alignment, widthFactor, maxWidth), with defaults filled in, are equal. When they do, the second draw constructs nothing. |

## Left out

- Drawing. What a path builder draws (`pathsBuilder(self, seriesIdx, idx0, idx1)`) belongs to uPlot. Builders are ids handed out by `RendererPaths`.
- Colour math. `getScaleGradientFn`, `getOpacityGradientFn`, `getHueGradientFn` and `colorManipulator.alpha` live in `gradientFills` and `@grafana/data`, which are not part of this model. Their results are tagged values carrying their arguments.
- Pass-throughs. The `theme` and `thresholds` arguments of the gradient helpers are not recorded. `pxAlign`, `value: () => ''`, `dataFrameFieldIndex` and the `PlotConfigBuilder` base class are also left out.
- Renderer defaults. uPlot's own point-visibility heuristic is out of scope; only "set" versus "not set" is modelled.
- Fallback colour. The value `"gray"` of `FALLBACK_COLOR` is taken from `@grafana/data`, which is not part of this model; only its use as the fallback matters.
- Floating point. Numbers are exact reals: `fillOpacity / 100` is exact and NaN does not occur. Bar keys are tuples rather than the string `bars|a|w|m`, so the collision of `0` and `-0` in that string is not modelled.
- `null` versus `undefined`. For `pathBuilder`, `pointsBuilder` and `drawStyle` they are the same `None`, as the `!= null` tests treat them.
- Global state. The module-level `builders` variable is a field of a cache object that owns the renderer factory. Nothing is concurrent.
