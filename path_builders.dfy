/** The path-builder cache: maps a draw style and its interpolation or bar
    geometry to a renderer path builder, constructing the four fixed-shape
    builders once and each bar builder once per geometry. */
module PathBuilders {
  import opened Wrappers
  import opened SeriesProps

  /** A path builder instance, identified by the position of the renderer
      constructor call that produced it. */
  type BuilderId = nat

  /** The renderer constructor calls: linear, spline, stepped with an
      alignment, and bars with a [widthFactor, maxWidth] size and an
      alignment. */
  datatype Shape =
    | LinearShape
    | SplineShape
    | SteppedShape(align: int)
    | BarsShape(widthFactor: real, maxWidth: MaxWidth, align: int)

  /** The geometry a bar builder is keyed by. */
  datatype BarKey = BarKey(alignment: int, widthFactor: real, maxWidth: MaxWidth)

  /** The entries of the cache: the four fixed builders and one bar builder
      per geometry (the `bars|…` keys). */
  datatype CacheKey =
    | LinearEntry
    | SmoothEntry
    | StepBeforeEntry
    | StepAfterEntry
    | BarsEntry(bar: BarKey)

  const FixedKeys: set<CacheKey> := {LinearEntry, SmoothEntry, StepBeforeEntry, StepAfterEntry}

  /** The constructor call that builds the entry for `k`; distinct entries
      are built by distinct calls. */
  function ShapeOf(k: CacheKey): (shape: Shape)
    ensures KeyOf(shape) == k
  {
    match k
    case LinearEntry => LinearShape
    case SmoothEntry => SplineShape
    case StepBeforeEntry => SteppedShape(-1)
    case StepAfterEntry => SteppedShape(1)
    case BarsEntry(b) => BarsShape(b.widthFactor, b.maxWidth, b.alignment)
  }

  /** Default bar geometry, applied when the option is undefined. */
  const DEFAULT_BAR_ALIGNMENT: int := 0
  const DEFAULT_BAR_WIDTH_FACTOR: real := 0.6

  /** The mapping table: which cache entry a draw style and its options
      select. Bars are keyed by their geometry with defaults filled in;
      lines by their interpolation; everything else is linear. */
  function KeyFor(style: DrawStyle, interpolation: Option<LineInterpolation>,
                  barAlignment: Option<int>, barWidthFactor: Option<real>,
                  barMaxWidth: Option<MaxWidth>): (k: CacheKey)
    ensures k.BarsEntry? <==> style == Bars
    ensures k.BarsEntry? ==>
      k.bar == BarKey(barAlignment.GetOr(DEFAULT_BAR_ALIGNMENT),
                      barWidthFactor.GetOr(DEFAULT_BAR_WIDTH_FACTOR),
                      barMaxWidth.GetOr(Infinity))
    ensures k == StepBeforeEntry <==> style == Line && interpolation == Some(StepBefore)
    ensures k == StepAfterEntry <==> style == Line && interpolation == Some(StepAfter)
    ensures k == SmoothEntry <==> style == Line && interpolation == Some(Smooth)
    ensures k == LinearEntry <==>
      (style.Points? ||
       (style.Line? && interpolation != Some(StepBefore) && interpolation != Some(StepAfter) && interpolation != Some(Smooth)))
  {
    if style == Bars then
      BarsEntry(BarKey(barAlignment.GetOr(DEFAULT_BAR_ALIGNMENT),
                       barWidthFactor.GetOr(DEFAULT_BAR_WIDTH_FACTOR),
                       barMaxWidth.GetOr(Infinity)))
    else if style == Line && interpolation == Some(StepBefore) then StepBeforeEntry
    else if style == Line && interpolation == Some(StepAfter) then StepAfterEntry
    else if style == Line && interpolation == Some(Smooth) then SmoothEntry
    else LinearEntry
  }

  /** The arguments the deferred `paths` callback of a series captures and
      later hands to the cache. */
  datatype PathCall = PathCall(
    style: DrawStyle,
    interpolation: Option<LineInterpolation>,
    barAlignment: Option<int>,
    barWidthFactor: Option<real>,
    barMaxWidth: Option<MaxWidth>)

  function CallKey(c: PathCall): CacheKey {
    KeyFor(c.style, c.interpolation, c.barAlignment, c.barWidthFactor, c.barMaxWidth)
  }

  /** The abstract state of the cache: the table (`None` until first use)
      and every constructor call made so far, in order. */
  datatype CacheState = CacheState(builders: Option<map<CacheKey, BuilderId>>, made: seq<Shape>)

  const Empty: CacheState := CacheState(None, [])

  /** The keys present in the table. */
  function Entries(s: CacheState): set<CacheKey> {
    if s.builders.None? then {} else s.builders.value.Keys
  }

  /** The entry a constructor call was made for: the inverse of `ShapeOf`. */
  function KeyOf(shape: Shape): CacheKey {
    match shape
    case LinearShape => LinearEntry
    case SplineShape => SmoothEntry
    case SteppedShape(a) => if a < 0 then StepBeforeEntry else StepAfterEntry
    case BarsShape(w, mw, a) => BarsEntry(BarKey(a, w, mw))
  }

  /** The cache invariant: nothing is built before first use; afterwards the
      four fixed entries are present, every entry is the instance built for
      its own key, and every instance built is the entry of the key it was
      built for (none was built twice, replaced or dropped). */
  ghost predicate Inv(s: CacheState) {
    match s.builders
    case None => s.made == []
    case Some(m) =>
      && FixedKeys <= m.Keys
      && (forall k :: k in m ==> m[k] < |s.made| && s.made[m[k]] == ShapeOf(k))
      && (forall i :: 0 <= i < |s.made| ==> KeyOf(s.made[i]) in m && m[KeyOf(s.made[i])] == i)
  }

  /** First use: if the table is undefined, build the four fixed entries
      in one batch; otherwise leave the cache as it is. */
  function Loaded(s: CacheState): (t: CacheState)
    ensures t.builders.Some?
    ensures Entries(t) == Entries(s) + (if s.builders.None? then FixedKeys else {})
    ensures s.builders.Some? ==> t == s
    ensures s.builders.None? ==>
      t.made == s.made + [LinearShape, SplineShape, SteppedShape(-1), SteppedShape(1)]
  {
    if s.builders.Some? then s
    else
      var n := |s.made|;
      var m := map[LinearEntry := n, SmoothEntry := n + 1, StepBeforeEntry := n + 2, StepAfterEntry := n + 3];
      assert m.Keys == FixedKeys;
      CacheState(Some(m), s.made + [ShapeOf(LinearEntry), ShapeOf(SmoothEntry),
                                    ShapeOf(StepBeforeEntry), ShapeOf(StepAfterEntry)])
  }

  /** Looking up `k`: load the fixed entries if the table is undefined, then
      return the entry for `k`, building and entering it only if absent.
      The lookup never replaces an entry, only adds, and changes nothing when
      `k` is already present. */
  function Resolve(s: CacheState, k: CacheKey): (r: (CacheState, BuilderId))
    ensures r.0.builders.Some? && k in r.0.builders.value && r.0.builders.value[k] == r.1
    ensures Entries(r.0) == Entries(s) + (if s.builders.None? then FixedKeys else {}) + {k}
    ensures s.builders.Some? ==>
      forall k' :: k' in s.builders.value ==> r.0.builders.value[k'] == s.builders.value[k']
    ensures s.made <= r.0.made
    ensures r.0 == s <==> k in Entries(s)
  {
    var t := Loaded(s);
    var m := t.builders.value;
    if k in m then (t, m[k])
    else (CacheState(Some(m[k := |t.made|]), t.made + [ShapeOf(k)]), |t.made|)
  }

  /** Loading the fixed entries into an unused cache establishes the
      invariant. */
  lemma LoadedKeepsInv(s: CacheState)
    requires Inv(s)
    ensures Inv(Loaded(s))
  {
    if s.builders.None? {
      var t := Loaded(s);
      var m := t.builders.value;
      forall i | 0 <= i < |t.made| ensures KeyOf(t.made[i]) in m && m[KeyOf(t.made[i])] == i {
        assert i == 0 || i == 1 || i == 2 || i == 3;
      }
    }
  }

  /** Building the instance for an absent key and entering it keeps the
      invariant. */
  lemma InsertKeepsInv(m: map<CacheKey, BuilderId>, made: seq<Shape>, k: CacheKey)
    requires Inv(CacheState(Some(m), made)) && k !in m
    ensures Inv(CacheState(Some(m[k := |made|]), made + [ShapeOf(k)]))
  {
    var n := |made|;
    var m', made' := m[k := n], made + [ShapeOf(k)];
    forall k' | k' in m' ensures m'[k'] < |made'| && made'[m'[k']] == ShapeOf(k') {
      if k' != k {
        assert made'[m[k']] == made[m[k']];
      }
    }
    forall i | 0 <= i < |made'| ensures KeyOf(made'[i]) in m' && m'[KeyOf(made'[i])] == i {
      if i < n {
        assert made'[i] == made[i];
        assert KeyOf(made[i]) in m;
        assert KeyOf(made[i]) != k;
      }
    }
  }

  /** Every lookup keeps the cache invariant. */
  lemma ResolveKeepsInv(s: CacheState, k: CacheKey)
    requires Inv(s)
    ensures Inv(Resolve(s, k).0)
  {
    LoadedKeepsInv(s);
    var t := Loaded(s);
    if k !in t.builders.value {
      InsertKeepsInv(t.builders.value, t.made, k);
    }
  }

  /** In a cache that keeps the invariant, distinct entries hold distinct
      instances. */
  lemma DistinctEntriesDistinctInstances(s: CacheState, k1: CacheKey, k2: CacheKey)
    requires Inv(s) && s.builders.Some? && k1 in s.builders.value && k2 in s.builders.value
    ensures s.builders.value[k1] == s.builders.value[k2] <==> k1 == k2
  {
    var m := s.builders.value;
    if m[k1] == m[k2] {
      assert ShapeOf(k1) == s.made[m[k1]] == ShapeOf(k2);
      assert KeyOf(ShapeOf(k1)) == KeyOf(ShapeOf(k2));
    }
  }

  /** A sequence of lookups, one after another, with the instance each
      returned. */
  function Run(s: CacheState, ks: seq<CacheKey>): (r: (CacheState, seq<BuilderId>))
    ensures |r.1| == |ks|
    decreases |ks|
  {
    if ks == [] then (s, [])
    else
      var (s1, b) := Resolve(s, ks[0]);
      var (s2, bs) := Run(s1, ks[1..]);
      (s2, [b] + bs)
  }

  /** Every run keeps the cache invariant. */
  lemma {:induction false} RunKeepsInv(s: CacheState, ks: seq<CacheKey>)
    requires Inv(s)
    ensures Inv(Run(s, ks).0)
    decreases |ks|
  {
    if ks != [] {
      ResolveKeepsInv(s, ks[0]);
      RunKeepsInv(Resolve(s, ks[0]).0, ks[1..]);
    }
  }

  /** After a run, the table holds exactly what it held before, the fixed
      entries if the run began on an unused cache and looked anything up, and
      every key looked up. */
  lemma {:induction false} RunEntries(s: CacheState, ks: seq<CacheKey>)
    ensures Entries(Run(s, ks).0) ==
      Entries(s) + (if s.builders.None? && ks != [] then FixedKeys else {}) + (set k | k in ks)
    decreases |ks|
  {
    if ks != [] {
      var s1 := Resolve(s, ks[0]).0;
      RunEntries(s1, ks[1..]);
      assert Run(s, ks).0 == Run(s1, ks[1..]).0;
      KeySetCons(ks);
    }
  }

  lemma KeySetCons(ks: seq<CacheKey>)
    requires ks != []
    ensures (set k | k in ks) == {ks[0]} + (set k | k in ks[1..])
  {
    forall k | k in ks ensures k == ks[0] || k in ks[1..] {
      var i :| 0 <= i < |ks| && ks[i] == k;
      if i > 0 { assert ks[1..][i - 1] == k; }
    }
  }

  /** A run never replaces an entry: every key present before keeps its
      instance. */
  lemma {:induction false} RunKeepsEntries(s: CacheState, ks: seq<CacheKey>, k: CacheKey)
    requires s.builders.Some? && k in s.builders.value
    ensures var t := Run(s, ks).0;
      t.builders.Some? && k in t.builders.value && t.builders.value[k] == s.builders.value[k]
    decreases |ks|
  {
    if ks != [] {
      RunKeepsEntries(Resolve(s, ks[0]).0, ks[1..], k);
    }
  }

  /** Each lookup of a run returned the instance the table holds for its key
      at the end of the run. */
  lemma {:induction false} RunReturnsFinalEntry(s: CacheState, ks: seq<CacheKey>, i: nat)
    requires i < |ks|
    ensures var (t, bs) := Run(s, ks);
      t.builders.Some? && ks[i] in t.builders.value && bs[i] == t.builders.value[ks[i]]
    decreases |ks|
  {
    var (s1, b) := Resolve(s, ks[0]);
    if i == 0 {
      RunKeepsEntries(s1, ks[1..], ks[0]);
    } else {
      RunReturnsFinalEntry(s1, ks[1..], i - 1);
    }
  }

  /** Within a run, two lookups return the same instance exactly when they
      asked for the same key: a repeated bar geometry shares its builder, and
      distinct geometries never do. */
  lemma SameInstanceIffSameKey(s: CacheState, ks: seq<CacheKey>, i: nat, j: nat)
    requires Inv(s) && i < |ks| && j < |ks|
    ensures Run(s, ks).1[i] == Run(s, ks).1[j] <==> ks[i] == ks[j]
  {
    RunReturnsFinalEntry(s, ks, i);
    RunReturnsFinalEntry(s, ks, j);
    RunKeepsInv(s, ks);
    DistinctEntriesDistinctInstances(Run(s, ks).0, ks[i], ks[j]);
  }

  /** Starting from an unused cache, a non-empty run builds each distinct
      key it needs exactly once: no constructor call is repeated, the four
      fixed builders and every key looked up were built, and nothing else. */
  lemma ConstructionsPerDistinctKey(ks: seq<CacheKey>)
    requires ks != []
    ensures var made := Run(Empty, ks).0.made;
      forall i, j :: 0 <= i < j < |made| ==> made[i] != made[j]
    ensures var made := Run(Empty, ks).0.made;
      forall k :: k in FixedKeys || k in ks ==> ShapeOf(k) in made
    ensures var made := Run(Empty, ks).0.made;
      forall i :: 0 <= i < |made| ==> KeyOf(made[i]) in FixedKeys || KeyOf(made[i]) in ks
  {
    RunEntries(Empty, ks);
    RunKeepsInv(Empty, ks);
    var t := Run(Empty, ks).0;
    var m, made := t.builders.value, t.made;
    forall i, j | 0 <= i < j < |made| ensures made[i] != made[j] {
      assert m[KeyOf(made[i])] == i && m[KeyOf(made[j])] == j;
    }
    forall k | k in FixedKeys || k in ks ensures ShapeOf(k) in made {
      assert k in m && made[m[k]] == ShapeOf(k);
    }
  }

  /** Looking the same key up twice in a row returns the identical instance
      and the second lookup changes nothing. */
  lemma RepeatedLookupIsIdentical(s: CacheState, k: CacheKey)
    ensures var (t, b) := Resolve(s, k); Resolve(t, k) == (t, b)
  {
  }

  /** The renderer's path-builder constructors. Each call makes a new
      instance; the log records every call. */
  class RendererPaths {
    var made: seq<Shape>

    constructor ()
      ensures made == []
    {
      made := [];
    }

    method Build(shape: Shape) returns (id: BuilderId)
      modifies this
      ensures made == old(made) + [shape]
      ensures id == |old(made)|
    {
      id := |made|;
      made := made + [shape];
    }
  }

  /** The cache object: `builders` stays undefined until the first lookup. */
  class BuilderCache {
    var builders: Option<map<CacheKey, BuilderId>>
    const paths: RendererPaths

    ghost function State(): CacheState
      reads this, paths
    {
      CacheState(builders, paths.made)
    }

    ghost predicate Valid()
      reads this, paths
    {
      Inv(State())
    }

    constructor ()
      ensures Valid() && State() == Empty && fresh(paths)
    {
      builders := None;
      paths := new RendererPaths();
    }

    /** First use: construct the four fixed builders in one batch, only
        while the table is undefined. */
    method LoadFixed()
      requires Valid()
      modifies this, paths
      ensures Valid()
      ensures State() == Loaded(old(State()))
    {
      ghost var s0 := State();
      LoadedKeepsInv(s0);
      if builders.None? {
        var linear := paths.Build(LinearShape);
        var smooth := paths.Build(SplineShape);
        var stepBefore := paths.Build(SteppedShape(-1));
        var stepAfter := paths.Build(SteppedShape(1));
        builders := Some(map[LinearEntry := linear, SmoothEntry := smooth,
                             StepBeforeEntry := stepBefore, StepAfterEntry := stepAfter]);
      }
      assert State() == Loaded(s0);
    }

    /** The bar builder for one geometry, constructed and entered only if
        the table has no entry for it. */
    method BarBuilder(key: BarKey) returns (b: BuilderId)
      requires Valid() && builders.Some?
      modifies this, paths
      ensures Valid()
      ensures (State(), b) == Resolve(old(State()), BarsEntry(key))
    {
      ResolveKeepsInv(State(), BarsEntry(key));
      var m := builders.value;
      if BarsEntry(key) !in m {
        var bar := paths.Build(BarsShape(key.widthFactor, key.maxWidth, key.alignment));
        builders := Some(m[BarsEntry(key) := bar]);
      }
      b := builders.value[BarsEntry(key)];
    }

    /** The lookup the deferred `paths` callback of a series makes. */
    method MapDrawStyleToPathBuilder(style: DrawStyle, interpolation: Option<LineInterpolation>,
                                     barAlignment: Option<int>, barWidthFactor: Option<real>,
                                     barMaxWidth: Option<MaxWidth>) returns (b: BuilderId)
      requires Valid()
      modifies this, paths
      ensures Valid()
      ensures (State(), b) == Resolve(old(State()), KeyFor(style, interpolation, barAlignment, barWidthFactor, barMaxWidth))
    {
      LoadFixed();
      var m := builders.value;
      if style == Bars {
        b := BarBuilder(BarKey(barAlignment.GetOr(DEFAULT_BAR_ALIGNMENT),
                               barWidthFactor.GetOr(DEFAULT_BAR_WIDTH_FACTOR),
                               barMaxWidth.GetOr(Infinity)));
        return;
      } else if style == Line {
        if interpolation == Some(StepBefore) {
          b := m[StepBeforeEntry];
          return;
        }
        if interpolation == Some(StepAfter) {
          b := m[StepAfterEntry];
          return;
        }
        if interpolation == Some(Smooth) {
          b := m[SmoothEntry];
          return;
        }
      }
      b := m[LinearEntry];
    }

    /** Running a series' deferred `paths` callback: the lookup with the
        arguments it captured (the drawing the builder then does is the
        renderer's). */
    method InvokeDeferred(call: PathCall) returns (b: BuilderId)
      requires Valid()
      modifies this, paths
      ensures Valid()
      ensures (State(), b) == Resolve(old(State()), CallKey(call))
    {
      b := MapDrawStyleToPathBuilder(call.style, call.interpolation, call.barAlignment,
                                     call.barWidthFactor, call.barMaxWidth);
    }
  }
}
