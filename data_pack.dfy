/**
 * Assembly of the data pack a briefing is written from: for each selected series, the
 * stored rows are turned into dated observations, summary statistics are derived, the
 * series is graded green, amber or red, and the grades are combined into one status.
 *
 * Dates are day numbers; `iso` renders a day as `date.isoformat()` does and appears only
 * inside messages.
 */
module DataPack {
  import opened Base
  import opened Sorting
  import opened Schemas
  import opened EconomicData
  import opened SeriesRepo
  import opened SeriesService

  type Day = int

  /** `(parsed period, value)`, either of which may be missing. */
  type Observation = (Option<Day>, Option<real>)

  // ---------------------------------------------------------------------------------
  // Frequency

  /** `(meta.get("frequency") or meta["metadata"].get("frequency") or "M").upper()` */
  function DetermineFrequency(c: SourceConfig): (f: string)
    ensures Present(c.frequency) ==> f == Upper(c.frequency.value)
    ensures !Present(c.frequency) && Present(MetaText(c.metadata, "frequency")) ==> f == Upper(MetaText(c.metadata, "frequency").value)
    ensures !Present(c.frequency) && !Present(MetaText(c.metadata, "frequency")) ==> f == "M"
  {
    assert Upper("M") == "M";
    Upper(Or(c.frequency, Or(MetaText(c.metadata, "frequency"), "M")))
  }

  /** `FREQUENCY_TO_PERIODS.get(frequency, 12)` */
  function PeriodsPerYear(frequency: string): (n: nat)
    ensures n >= 1
  {
    if frequency == "M" then 12 else if frequency == "Q" then 4 else if frequency == "A" then 1 else 12
  }

  // ---------------------------------------------------------------------------------
  // Sequences of reals

  function Values<K>(s: seq<(K, real)>): (r: seq<real>)
    ensures |r| == |s|
  {
    seq(|s|, i requires 0 <= i < |s| => s[i].1)
  }

  function Sum(s: seq<real>): real {
    if s == [] then 0.0 else Sum(s[..|s| - 1]) + s[|s| - 1]
  }

  /** `statistics.mean` over reals (the source then rounds to four places). */
  function Mean(s: seq<real>): real
    requires |s| > 0
  {
    Sum(s) / (|s| as real)
  }

  /** `min(...)` of a non-empty sequence. */
  function MinOf(s: seq<real>): real
    requires |s| > 0
  {
    if |s| == 1 then s[0]
    else
      var m := MinOf(s[..|s| - 1]);
      if s[|s| - 1] < m then s[|s| - 1] else m
  }

  /** `max(...)` of a non-empty sequence. */
  function MaxOf(s: seq<real>): real
    requires |s| > 0
  {
    if |s| == 1 then s[0]
    else
      var m := MaxOf(s[..|s| - 1]);
      if s[|s| - 1] > m then s[|s| - 1] else m
  }

  /** The minimum and maximum are elements and bound every element. */
  lemma {:induction false} MinMaxBounds(s: seq<real>)
    requires |s| > 0
    ensures MinOf(s) in s && MaxOf(s) in s
    ensures forall i :: 0 <= i < |s| ==> MinOf(s) <= s[i] <= MaxOf(s)
  {
    if |s| > 1 {
      var init := s[..|s| - 1];
      MinMaxBounds(init);
      assert forall i :: 0 <= i < |init| ==> init[i] == s[i];
      assert forall x :: x in init ==> x in s;
    }
  }

  lemma {:induction false} SumBounds(s: seq<real>, lo: real, hi: real)
    requires forall i :: 0 <= i < |s| ==> lo <= s[i] <= hi
    ensures (|s| as real) * lo <= Sum(s) <= (|s| as real) * hi
  {
    if s != [] {
      var init := s[..|s| - 1];
      assert forall i :: 0 <= i < |init| ==> init[i] == s[i];
      SumBounds(init, lo, hi);
      assert (|s| as real) * lo == (|init| as real) * lo + lo;
      assert (|s| as real) * hi == (|init| as real) * hi + hi;
    }
  }

  /** A mean lies between any bounds of the values it averages. */
  lemma MeanWithin(s: seq<real>, lo: real, hi: real)
    requires |s| > 0
    requires forall i :: 0 <= i < |s| ==> lo <= s[i] <= hi
    ensures lo <= Mean(s) <= hi
  {
    SumBounds(s, lo, hi);
    var n := |s| as real;
    assert Mean(s) * n == Sum(s);
  }

  // ---------------------------------------------------------------------------------
  // Derived statistics

  predicate IsValued(o: Observation) {
    o.0.Some? && o.1.Some?
  }

  /** The observations with both a period and a value, in input order. */
  function DatedValued(obs: seq<Observation>): (r: seq<(Day, real)>)
    ensures |r| <= |obs|
  {
    if obs == [] then []
    else
      var last := obs[|obs| - 1];
      DatedValued(obs[..|obs| - 1]) + (if IsValued(last) then [(last.0.value, last.1.value)] else [])
  }

  /** A point is kept exactly when it is an observation with both parts; none are kept exactly when no observation has both. */
  lemma {:induction false} DatedValuedMembers(obs: seq<Observation>)
    ensures forall p :: p in DatedValued(obs) <==> (Some(p.0), Some(p.1)) in obs
    ensures DatedValued(obs) == [] <==> forall i :: 0 <= i < |obs| ==> !IsValued(obs[i])
    ensures exists idx :: ValuedAt(DatedValued(obs), obs, idx)
  {
    var idx := DatedValuedPositions(obs);
    if obs != [] {
      var init := obs[..|obs| - 1];
      var last := obs[|obs| - 1];
      DatedValuedMembers(init);
      assert obs == init + [last];
      assert forall i :: 0 <= i < |init| ==> init[i] == obs[i];
    }
  }

  /**
   * Where the valued points came from: `r` is `obs` read, unwrapped, at the strictly
   * increasing positions `idx`, which are exactly the positions of valued observations.
   */
  predicate ValuedAt(r: seq<(Day, real)>, obs: seq<Observation>, idx: seq<nat>) {
    |idx| == |r|
    && (forall k :: 0 <= k < |idx| ==>
          idx[k] < |obs| && IsValued(obs[idx[k]]) && r[k] == (obs[idx[k]].0.value, obs[idx[k]].1.value))
    && (forall a, b :: 0 <= a < b < |idx| ==> idx[a] < idx[b])
    && (forall j :: 0 <= j < |obs| && IsValued(obs[j]) ==> j in idx)
  }

  /** One more observation extends the positions by its own index exactly when it is valued. */
  lemma ValuedSnoc(r: seq<(Day, real)>, obs: seq<Observation>, idx: seq<nat>, x: Observation)
    requires ValuedAt(r, obs, idx)
    ensures ValuedAt(r + (if IsValued(x) then [(x.0.value, x.1.value)] else []), obs + [x],
                     idx + (if IsValued(x) then [|obs|] else []))
  {
    var s := obs + [x];
    var r' := r + (if IsValued(x) then [(x.0.value, x.1.value)] else []);
    var idx' := idx + (if IsValued(x) then [|obs|] else []);
    forall k | 0 <= k < |idx'|
      ensures idx'[k] < |s| && IsValued(s[idx'[k]]) && r'[k] == (s[idx'[k]].0.value, s[idx'[k]].1.value)
    {
      if k < |idx| {
        assert idx'[k] == idx[k] && r'[k] == r[k] && s[idx[k]] == obs[idx[k]];
      }
    }
    forall a, b | 0 <= a < b < |idx'| ensures idx'[a] < idx'[b] {
      if b < |idx| { assert idx'[a] == idx[a] && idx'[b] == idx[b]; }
      else { assert idx'[a] == idx[a] < |obs|; }
    }
    forall j | 0 <= j < |s| && IsValued(s[j]) ensures j in idx' {
      if j < |obs| { assert s[j] == obs[j]; assert j in idx; }
      else { assert idx'[|idx|] == j; }
    }
  }

  /** `DatedValued` keeps order and multiplicity: it reads the valued observations in place. */
  lemma {:induction false} DatedValuedPositions(obs: seq<Observation>) returns (idx: seq<nat>)
    ensures ValuedAt(DatedValued(obs), obs, idx)
  {
    if obs == [] {
      idx := [];
    } else {
      var init := obs[..|obs| - 1];
      var last := obs[|obs| - 1];
      var prev := DatedValuedPositions(init);
      ValuedSnoc(DatedValued(init), init, prev, last);
      assert obs == init + [last];
      idx := prev + (if IsValued(last) then [|init|] else []);
    }
  }

  /** The valued points in period order (stable for equal periods). */
  function Ordered(obs: seq<Observation>): (r: seq<(Day, real)>)
    ensures |r| == |DatedValued(obs)|
  {
    SortByKey(DatedValued(obs))
  }

  lemma OrderedFacts(obs: seq<Observation>)
    ensures SortedByKey(Ordered(obs))
    ensures forall p :: p in Ordered(obs) <==> (Some(p.0), Some(p.1)) in obs
    ensures Ordered(obs) == [] <==> forall i :: 0 <= i < |obs| ==> !IsValued(obs[i])
    ensures multiset(Ordered(obs)) == multiset(DatedValued(obs))
  {
    var r := Ordered(obs);
    DatedValuedMembers(obs);
    assert forall p :: p in r <==> p in multiset(r);
    assert forall p :: p in DatedValued(obs) <==> p in multiset(DatedValued(obs));
  }

  /** The keys `_derive_stats` fills in; an empty dict is `None`. */
  datatype Stats = Stats(
    latestPeriod: Day,
    latestValue: real,
    momChange: Option<real>,
    yoyChange: Option<real>,
    rolling3Avg: Option<real>,
    rolling12Avg: Option<real>,
    min: real,
    max: real)

  /** The latest value less the one `back` places earlier, if there is one. */
  function Change(ordered: seq<(Day, real)>, back: nat): Option<real> {
    if |ordered| > back then Some(ordered[|ordered| - 1].1 - ordered[|ordered| - 1 - back].1) else None
  }

  /** The mean of the last `k` values, if there are that many. */
  function Window(vals: seq<real>, k: nat): Option<real> {
    if 0 < k <= |vals| then Some(Mean(vals[|vals| - k..])) else None
  }

  lemma WindowWithin(vals: seq<real>, k: nat)
    requires |vals| > 0
    ensures Window(vals, k).Some? ==> MinOf(vals) <= Window(vals, k).value <= MaxOf(vals)
  {
    if 0 < k <= |vals| {
      MinMaxBounds(vals);
      var w := vals[|vals| - k..];
      forall i | 0 <= i < |w| ensures MinOf(vals) <= w[i] <= MaxOf(vals) {
        assert w[i] == vals[|vals| - k + i];
      }
      MeanWithin(w, MinOf(vals), MaxOf(vals));
    }
  }

  /** The statistics of an ordered list of points, as `_derive_stats` computes them from `ordered`. */
  function StatsOf(ordered: seq<(Day, real)>, frequency: string): Option<Stats> {
    if ordered == [] then None
    else
      var latest := ordered[|ordered| - 1];
      var ppy := PeriodsPerYear(frequency);
      var vals := Values(ordered);
      Some(Stats(latest.0, latest.1, Change(ordered, 1), Change(ordered, ppy),
                 Window(vals, 3), Window(vals, ppy), MinOf(vals), MaxOf(vals)))
  }

  /** `_derive_stats(values, frequency)` over the observations that carry both a period and a value. */
  function DeriveStats(obs: seq<Observation>, frequency: string): Option<Stats> {
    var ordered := Ordered(obs);
    if ordered == [] then None else StatsOf(ordered, frequency)
  }

  /**
   * The result is empty exactly when no observation has both a period and a value; the
   * latest entry is then an observation, and no valued observation has a later period.
   */
  lemma DeriveStatsLatest(obs: seq<Observation>, frequency: string)
    ensures var r := DeriveStats(obs, frequency);
      (r.None? <==> forall i :: 0 <= i < |obs| ==> !IsValued(obs[i]))
      && (r.Some? ==>
            (Some(r.value.latestPeriod), Some(r.value.latestValue)) in obs
            && forall i :: 0 <= i < |obs| && IsValued(obs[i]) ==> obs[i].0.value <= r.value.latestPeriod)
  {
    var ordered := Ordered(obs);
    OrderedFacts(obs);
    if ordered != [] {
      assert DeriveStats(obs, frequency) == StatsOf(ordered, frequency);
      StatsOfDeltas(ordered, frequency);
      OrderedLatest(obs);
    }
  }

  /**
   * Ties on the latest period: `ordered[-1]` is, of the valued observations with that
   * period, the last one in input order, since `sorted` is stable.
   */
  lemma LatestIsLastTie(obs: seq<Observation>)
    requires Ordered(obs) != []
    ensures var ordered := Ordered(obs);
      var latest := ordered[|ordered| - 1];
      var ties := WithKey(DatedValued(obs), latest.0);
      ties != [] && ties[|ties| - 1] == latest
  {
    var ordered := Ordered(obs);
    var latest := ordered[|ordered| - 1];
    LastOfItsKey(ordered);
    SortByKeyStable(DatedValued(obs), latest.0);
    assert ordered == SortByKey(DatedValued(obs));
    assert WithKey(ordered, latest.0) == WithKey(DatedValued(obs), latest.0);
  }

  /** The last point in period order is an observation whose period no valued observation exceeds. */
  lemma OrderedLatest(obs: seq<Observation>)
    requires Ordered(obs) != []
    ensures var ordered := Ordered(obs);
      var n := |ordered|;
      (Some(ordered[n - 1].0), Some(ordered[n - 1].1)) in obs
      && forall i :: 0 <= i < |obs| && IsValued(obs[i]) ==> obs[i].0.value <= ordered[n - 1].0
  {
    var ordered := Ordered(obs);
    var n := |ordered|;
    OrderedFacts(obs);
    assert ordered[n - 1] in ordered;
    LastIsMax(ordered);
    forall i | 0 <= i < |obs| && IsValued(obs[i])
      ensures obs[i].0.value <= ordered[n - 1].0
    {
      assert (obs[i].0.value, obs[i].1.value) in ordered;
    }
  }

  /**
   * `min` and `max` are values of valued observations and bound every one of them, the
   * latest value included, and both rolling averages lie within `[min, max]`.
   */
  lemma DeriveStatsRange(obs: seq<Observation>, frequency: string)
    ensures var r := DeriveStats(obs, frequency);
      r.Some? ==>
        (forall i :: 0 <= i < |obs| && IsValued(obs[i]) ==> r.value.min <= obs[i].1.value <= r.value.max)
        && r.value.min <= r.value.latestValue <= r.value.max
        && (exists p :: (Some(p), Some(r.value.min)) in obs)
        && (exists p :: (Some(p), Some(r.value.max)) in obs)
        && (r.value.rolling3Avg.Some? ==> r.value.min <= r.value.rolling3Avg.value <= r.value.max)
        && (r.value.rolling12Avg.Some? ==> r.value.min <= r.value.rolling12Avg.value <= r.value.max)
  {
    var ordered := Ordered(obs);
    OrderedFacts(obs);
    if ordered != [] {
      var vals := Values(ordered);
      var s := StatsOf(ordered, frequency).value;
      assert s.min == MinOf(vals) && s.max == MaxOf(vals) && s.latestValue == vals[|ordered| - 1];
      MinMaxBounds(vals);
      ValuesWithin(obs, ordered);
      WindowWithin(vals, 3);
      WindowWithin(vals, PeriodsPerYear(frequency));
    }
  }

  /** The extremes of the ordered values are observed values and bound every valued observation. */
  lemma ValuesWithin(obs: seq<Observation>, ordered: seq<(Day, real)>)
    requires ordered != []
    requires forall p :: p in ordered <==> (Some(p.0), Some(p.1)) in obs
    ensures var vals := Values(ordered);
      (forall i :: 0 <= i < |obs| && IsValued(obs[i]) ==> MinOf(vals) <= obs[i].1.value <= MaxOf(vals))
      && (exists p :: (Some(p), Some(MinOf(vals))) in obs)
      && (exists p :: (Some(p), Some(MaxOf(vals))) in obs)
  {
    var n := |ordered|;
    var vals := Values(ordered);
    MinMaxBounds(vals);
    forall i | 0 <= i < |obs| && IsValued(obs[i])
      ensures MinOf(vals) <= obs[i].1.value <= MaxOf(vals)
    {
      var p := (obs[i].0.value, obs[i].1.value);
      assert p in ordered;
      var j :| 0 <= j < n && ordered[j] == p;
      assert vals[j] == p.1;
    }
    var kmin :| 0 <= kmin < n && vals[kmin] == MinOf(vals);
    assert ordered[kmin] in ordered;
    var pmin := ordered[kmin].0;
    assert (Some(pmin), Some(MinOf(vals))) in obs;
    var kmax :| 0 <= kmax < n && vals[kmax] == MaxOf(vals);
    assert ordered[kmax] in ordered;
    var pmax := ordered[kmax].0;
    assert (Some(pmax), Some(MaxOf(vals))) in obs;
  }

  /**
   * Which changes and averages are present: the month-on-month change from two valued
   * observations, the year-on-year change from more than one year's worth of periods, each
   * comparing the latest value with the one that many places back in period order, the
   * three-period average from three observations and the twelve-month average from one
   * year's worth, each the mean of that many latest values in period order.
   */
  lemma DeriveStatsDeltas(obs: seq<Observation>, frequency: string)
    ensures var r := DeriveStats(obs, frequency);
      var ordered := Ordered(obs);
      var n := |ordered|;
      var ppy := PeriodsPerYear(frequency);
      r.Some? ==>
        (r.value.momChange.Some? <==> n >= 2)
        && (r.value.momChange.Some? ==> r.value.momChange.value == r.value.latestValue - ordered[n - 2].1)
        && (r.value.yoyChange.Some? <==> n > ppy)
        && (r.value.yoyChange.Some? ==> r.value.yoyChange.value == r.value.latestValue - ordered[n - 1 - ppy].1)
        && (r.value.rolling3Avg.Some? <==> n >= 3)
        && (r.value.rolling3Avg.Some? ==> r.value.rolling3Avg.value == Mean(Values(ordered)[n - 3..]))
        && (r.value.rolling12Avg.Some? <==> n >= ppy)
        && (r.value.rolling12Avg.Some? ==> r.value.rolling12Avg.value == Mean(Values(ordered)[n - ppy..]))
  {
    var ordered := Ordered(obs);
    if ordered != [] {
      assert DeriveStats(obs, frequency) == StatsOf(ordered, frequency);
      StatsOfDeltas(ordered, frequency);
    }
  }

  lemma StatsOfDeltas(ordered: seq<(Day, real)>, frequency: string)
    requires ordered != []
    ensures var s := StatsOf(ordered, frequency).value;
      var n := |ordered|;
      var ppy := PeriodsPerYear(frequency);
      s.latestPeriod == ordered[n - 1].0 && s.latestValue == ordered[n - 1].1
      && (s.momChange.Some? <==> n >= 2)
      && (s.momChange.Some? ==> s.momChange.value == s.latestValue - ordered[n - 2].1)
      && (s.yoyChange.Some? <==> n > ppy)
      && (s.yoyChange.Some? ==> s.yoyChange.value == s.latestValue - ordered[n - 1 - ppy].1)
      && (s.rolling3Avg.Some? <==> n >= 3)
      && (s.rolling3Avg.Some? ==> s.rolling3Avg.value == Mean(Values(ordered)[n - 3..]))
      && (s.rolling12Avg.Some? <==> n >= ppy)
      && (s.rolling12Avg.Some? ==> s.rolling12Avg.value == Mean(Values(ordered)[n - ppy..]))
  {
  }

  // ---------------------------------------------------------------------------------
  // `_derive_stats` as written

  /** `[(period, value) for period, value in values if value is not None]` */
  function ValuedPoints(obs: seq<Observation>): (r: seq<(Option<Day>, real)>)
    ensures |r| <= |obs|
  {
    if obs == [] then []
    else
      var init := obs[..|obs| - 1];
      var last := obs[|obs| - 1];
      assert obs == init + [last];
      ValuedPoints(init) + (if last.1.Some? then [(last.0, last.1.value)] else [])
  }

  predicate HasUndated(points: seq<(Option<Day>, real)>) {
    exists i :: 0 <= i < |points| && points[i].0.None?
  }

  /** The points with their periods unwrapped, when every one has a period. */
  function DatedPoints(points: seq<(Option<Day>, real)>): (r: seq<(Day, real)>)
    requires !HasUndated(points)
    ensures |r| == |points|
  {
    seq(|points|, i requires 0 <= i < |points| => (points[i].0.value, points[i].1))
  }

  /**
   * The source's `_derive_stats`: it keeps every observation with a value, including those
   * whose period did not parse. Sorting two or more such points compares `None` with a date
   * (or with `None`) and raises TypeError; a single undated point passes the sort and then
   * `None.isoformat()` raises AttributeError.
   */
  function DeriveStatsAsWritten(obs: seq<Observation>, frequency: string): (r: Result<Option<Stats>>)
    ensures HasUndated(ValuedPoints(obs)) ==> r.Err?
  {
    var points := ValuedPoints(obs);
    if |points| >= 2 && HasUndated(points) then
      Err("TypeError: '<' not supported between instances of 'NoneType' and 'datetime.date'")
    else if |points| == 1 && points[0].0.None? then
      Err("AttributeError: 'NoneType' object has no attribute 'isoformat'")
    else if points == [] then Ok(None)
    else Ok(StatsOf(SortByKey(DatedPoints(points)), frequency))
  }

  lemma {:induction false} DatedPointsOfValued(obs: seq<Observation>)
    requires !HasUndated(ValuedPoints(obs))
    ensures DatedPoints(ValuedPoints(obs)) == DatedValued(obs)
  {
    if obs != [] {
      var init := obs[..|obs| - 1];
      var last := obs[|obs| - 1];
      var tail := if last.1.Some? then [(last.0, last.1.value)] else [];
      assert ValuedPoints(obs) == ValuedPoints(init) + tail;
      assert !HasUndated(ValuedPoints(init)) by {
        forall i | 0 <= i < |ValuedPoints(init)| ensures ValuedPoints(init)[i].0.Some? {
          assert ValuedPoints(obs)[i] == ValuedPoints(init)[i];
        }
      }
      DatedPointsOfValued(init);
      if last.1.Some? {
        assert ValuedPoints(obs)[|ValuedPoints(obs)| - 1] == (last.0, last.1.value);
      }
    }
  }

  /** When every valued observation is dated, the source computes what `DeriveStats` does. */
  lemma DeriveStatsAsWrittenAgrees(obs: seq<Observation>, frequency: string)
    requires !HasUndated(ValuedPoints(obs))
    ensures DeriveStatsAsWritten(obs, frequency) == Ok(DeriveStats(obs, frequency))
  {
    DatedPointsOfValued(obs);
  }

  /**
   * One undated point with a value beside one dated point: the source raises where the
   * corrected definition reports the dated point.
   */
  lemma DeriveStatsAsWrittenRaises()
    ensures DeriveStatsAsWritten([(None, Some(1.0)), (Some(0), Some(2.0))], "M").Err?
    ensures DeriveStats([(None, Some(1.0)), (Some(0), Some(2.0))], "M") == Some(Stats(0, 2.0, None, None, None, None, 2.0, 2.0))
  {
    var obs: seq<Observation> := [(None, Some(1.0)), (Some(0), Some(2.0))];
    assert obs[..1] == [(None, Some(1.0))];
    assert ValuedPoints(obs)[0] == (None, 1.0);
    assert obs[..1][..0] == [];
    assert DatedValued(obs) == [(0, 2.0)];
    assert Ordered(obs) == [(0, 2.0)];
  }

  // ---------------------------------------------------------------------------------
  // Quality grading

  datatype Status = Green | Amber | Red

  function Rank(s: Status): nat {
    match s
    case Green => 0
    case Amber => 1
    case Red => 2
  }

  function StatusText(s: Status): string {
    match s
    case Green => "green"
    case Amber => "amber"
    case Red => "red"
  }

  /** The check names the pack uses. */
  datatype CheckName = Availability | Freshness | MissingValues | Coverage

  function CheckNameText(n: CheckName): string {
    match n
    case Availability => "availability"
    case Freshness => "freshness"
    case MissingValues => "missing_values"
    case Coverage => "coverage"
  }

  /** What a check's `detail` says; `DetailText` gives its wording. */
  datatype Detail =
    | NoObservationsDetail
    | FreshnessDetail(latest: Day, isFresh: bool)
    | MissingDetail(missing: nat, total: nat)
    | CoverageDetail(included: nat)

  function DetailText(d: Detail, iso: Day -> string): string {
    match d
    case NoObservationsDetail => "No observations available."
    case FreshnessDetail(latest, isFresh) =>
      "Latest period " + iso(latest) + (if isFresh then " (fresh)" else " (stale)")
    case MissingDetail(missing, total) =>
      NatToString(missing) + " missing points out of " + NatToString(total)
    case CoverageDetail(n) => NatToString(n) + " series included."
  }

  /** An entry of `data_limitations`; `LimitationText` gives its wording. */
  datatype Limitation =
    | NoObservations
    | StaleData
    | MissingValuesFor(periods: seq<Day>)
    | InsufficientLookback
    | SeriesNotConfigured(source: string, sourceSeriesId: string)
    | ProviderNotSupported(provider: string)

  function IsoList(periods: seq<Day>, iso: Day -> string): (r: seq<string>)
    ensures |r| == |periods| && forall i :: 0 <= i < |periods| ==> r[i] == iso(periods[i])
  {
    seq(|periods|, i requires 0 <= i < |periods| => iso(periods[i]))
  }

  function LimitationText(l: Limitation, iso: Day -> string): string {
    match l
    case NoObservations => "No observations available."
    case StaleData => "Latest data is older than expected cadence."
    case MissingValuesFor(periods) => "Missing values for " + Join(", ", Take(IsoList(periods, iso), 5))
    case InsufficientLookback => "Insufficient lookback window to compute deltas."
    case SeriesNotConfigured(source, id) => "Series " + source + ":" + id + " not configured."
    case ProviderNotSupported(provider) => "Provider " + provider + " not supported in data pack."
  }

  datatype Check = Check(name: CheckName, ok: bool, detail: Detail)

  datatype Quality = Quality(status: Status, checks: seq<Check>, limitations: seq<Limitation>)

  /** `[item for item in observations if item[0]]`: the observations with a period. */
  function Dated(obs: seq<Observation>): (r: seq<(Day, Option<real>)>)
    ensures |r| <= |obs|
    ensures forall p :: p in r <==> (Some(p.0), p.1) in obs
  {
    if obs == [] then []
    else
      var init := obs[..|obs| - 1];
      var last := obs[|obs| - 1];
      assert obs == init + [last];
      Dated(init) + (if last.0.Some? then [(last.0.value, last.1)] else [])
  }

  /**
   * Where the dated observations came from: `r` is `obs` read, with the period unwrapped, at
   * the strictly increasing positions `idx`, which are exactly the positions with a period.
   */
  predicate DatedAt(r: seq<(Day, Option<real>)>, obs: seq<Observation>, idx: seq<nat>) {
    |idx| == |r|
    && (forall k :: 0 <= k < |idx| ==>
          idx[k] < |obs| && obs[idx[k]].0.Some? && r[k] == (obs[idx[k]].0.value, obs[idx[k]].1))
    && (forall a, b :: 0 <= a < b < |idx| ==> idx[a] < idx[b])
    && (forall j :: 0 <= j < |obs| && obs[j].0.Some? ==> j in idx)
  }

  /** One more observation extends the positions by its own index exactly when it is dated. */
  lemma DatedSnoc(r: seq<(Day, Option<real>)>, obs: seq<Observation>, idx: seq<nat>, x: Observation)
    requires DatedAt(r, obs, idx)
    ensures DatedAt(r + (if x.0.Some? then [(x.0.value, x.1)] else []), obs + [x],
                    idx + (if x.0.Some? then [|obs|] else []))
  {
    var s := obs + [x];
    var r' := r + (if x.0.Some? then [(x.0.value, x.1)] else []);
    var idx' := idx + (if x.0.Some? then [|obs|] else []);
    forall k | 0 <= k < |idx'|
      ensures idx'[k] < |s| && s[idx'[k]].0.Some? && r'[k] == (s[idx'[k]].0.value, s[idx'[k]].1)
    {
      if k < |idx| {
        assert idx'[k] == idx[k] && r'[k] == r[k] && s[idx[k]] == obs[idx[k]];
      }
    }
    forall a, b | 0 <= a < b < |idx'| ensures idx'[a] < idx'[b] {
      if b < |idx| { assert idx'[a] == idx[a] && idx'[b] == idx[b]; }
      else { assert idx'[a] == idx[a] < |obs|; }
    }
    forall j | 0 <= j < |s| && s[j].0.Some? ensures j in idx' {
      if j < |obs| { assert s[j] == obs[j]; assert j in idx; }
      else { assert idx'[|idx|] == j; }
    }
  }

  /** `Dated` keeps order and multiplicity: it reads the dated observations in place. */
  lemma {:induction false} DatedPositions(obs: seq<Observation>) returns (idx: seq<nat>)
    ensures DatedAt(Dated(obs), obs, idx)
  {
    if obs == [] {
      idx := [];
    } else {
      var init := obs[..|obs| - 1];
      var last := obs[|obs| - 1];
      var prev := DatedPositions(init);
      DatedSnoc(Dated(init), init, prev, last);
      assert obs == init + [last];
      idx := prev + (if last.0.Some? then [|init|] else []);
    }
  }

  /** The dated observations in period order (stable for equal periods). */
  function DatedOrdered(obs: seq<Observation>): (r: seq<(Day, Option<real>)>)
    ensures SortedByKey(r) && |r| == |Dated(obs)|
  {
    SortByKey(Dated(obs))
  }

  lemma DatedOrderedMembers(obs: seq<Observation>)
    ensures forall p :: p in DatedOrdered(obs) <==> (Some(p.0), p.1) in obs
    ensures multiset(DatedOrdered(obs)) == multiset(Dated(obs))
    ensures exists idx :: DatedAt(Dated(obs), obs, idx)
  {
    var idx := DatedPositions(obs);
    var r := DatedOrdered(obs);
    assert forall p :: p in r <==> p in multiset(r);
    assert forall p :: p in Dated(obs) <==> p in multiset(Dated(obs));
  }

  lemma {:induction false} DatedNone(obs: seq<Observation>)
    requires forall i :: 0 <= i < |obs| ==> obs[i].0.None?
    ensures Dated(obs) == []
  {
    if obs != [] {
      var init := obs[..|obs| - 1];
      assert forall i :: 0 <= i < |init| ==> init[i] == obs[i];
      DatedNone(init);
    }
  }

  /** `[period for period, value in ordered if value is None]` */
  function MissingPeriods(ordered: seq<(Day, Option<real>)>): (r: seq<Day>)
    ensures |r| <= |ordered|
  {
    if ordered == [] then []
    else
      var last := ordered[|ordered| - 1];
      MissingPeriods(ordered[..|ordered| - 1]) + (if last.1.None? then [last.0] else [])
  }

  /** No period is missing exactly when every dated observation has a value. */
  lemma {:induction false} MissingPeriodsEmpty(ordered: seq<(Day, Option<real>)>)
    ensures MissingPeriods(ordered) == [] <==> forall i :: 0 <= i < |ordered| ==> ordered[i].1.Some?
  {
    if ordered != [] {
      var init := ordered[..|ordered| - 1];
      MissingPeriodsEmpty(init);
      assert forall i :: 0 <= i < |init| ==> init[i] == ordered[i];
    }
  }

  /** The freshness tolerance in days. */
  function Tolerance(frequency: string): int {
    if frequency == "M" then 40 else 120
  }

  /** `any(not check["ok"] for check in checks)` */
  function AnyFailed(checks: seq<Check>): bool {
    checks != [] && (!checks[0].ok || AnyFailed(checks[1..]))
  }

  lemma {:induction false} AnyFailedMeans(checks: seq<Check>)
    ensures AnyFailed(checks) <==> exists i :: 0 <= i < |checks| && !checks[i].ok
  {
    if checks != [] {
      AnyFailedMeans(checks[1..]);
      assert forall i :: 0 < i < |checks| ==> checks[1..][i - 1] == checks[i];
      if exists i :: 0 <= i < |checks| && !checks[i].ok {
        var i :| 0 <= i < |checks| && !checks[i].ok;
        if i > 0 { assert !checks[1..][i - 1].ok; }
      }
    }
  }

  /** `s` with `x` appended when `c` holds. */
  function AppendIf<T>(s: seq<T>, c: bool, x: T): seq<T> {
    if c then s + [x] else s
  }

  lemma AppendIfMembers<T>(s: seq<T>, c: bool, x: T)
    ensures x in AppendIf(s, c, x) <==> x in s || c
    ensures forall y :: y in s ==> y in AppendIf(s, c, x)
    ensures forall y :: y in AppendIf(s, c, x) && y != x ==> y in s
  {
  }

  /** The limitations, appended in the order `_quality_checks` appends them. */
  function Limitations(isFresh: bool, missing: seq<Day>, short: bool): seq<Limitation> {
    AppendIf(AppendIf(AppendIf([], !isFresh, StaleData), |missing| > 0, MissingValuesFor(missing)),
             short, InsufficientLookback)
  }

  /** The grading `_quality_checks` performs, stated check by check. */
  function QualityOf(obs: seq<Observation>, frequency: string, today: Day): Quality {
    var ordered := DatedOrdered(obs);
    if ordered == [] then Quality(Red, [Check(Availability, false, NoObservationsDetail)], [NoObservations])
    else Graded(ordered, frequency, today)
  }

  /** The grading of a non-empty, period-ordered list of dated observations. */
  function Graded(ordered: seq<(Day, Option<real>)>, frequency: string, today: Day): Quality
    requires ordered != []
  {
    var latest := ordered[|ordered| - 1].0;
    var isFresh := today - latest <= Tolerance(frequency);
    var missing := MissingPeriods(ordered);
    var checks := [Check(Freshness, isFresh, FreshnessDetail(latest, isFresh)),
                   Check(MissingValues, |missing| == 0, MissingDetail(|missing|, |ordered|))];
    var status := if |ordered| < 3 then Red else if AnyFailed(checks) then Amber else Green;
    Quality(status, checks, Limitations(isFresh, missing, |ordered| < 3))
  }

  /**
   * `_quality_checks(observations, frequency)` with today's date passed in: with no dated
   * observation the series fails the availability check, and otherwise it is graded.
   */
  method QualityChecks(obs: seq<Observation>, frequency: string, today: Day)
    returns (status: Status, checks: seq<Check>, limitations: seq<Limitation>)
    ensures Quality(status, checks, limitations) == QualityOf(obs, frequency, today)
  {
    var ordered := DatedOrdered(obs);
    if ordered == [] {
      return Red, [Check(Availability, false, NoObservationsDetail)], [NoObservations];
    }
    status, checks, limitations := GradeDated(ordered, frequency, today);
  }

  /**
   * The body of `_quality_checks` past the emptiness test: appends the freshness and
   * missing-value checks and their limitations, then grades the series.
   */
  method GradeDated(ordered: seq<(Day, Option<real>)>, frequency: string, today: Day)
    returns (status: Status, checks: seq<Check>, limitations: seq<Limitation>)
    requires ordered != []
    ensures Quality(status, checks, limitations) == Graded(ordered, frequency, today)
  {
    checks := [];
    limitations := [];
    var latest := ordered[|ordered| - 1].0;
    var isFresh := today - latest <= Tolerance(frequency);
    checks := checks + [Check(Freshness, isFresh, FreshnessDetail(latest, isFresh))];
    if !isFresh {
      limitations := limitations + [StaleData];
    }
    var total := |ordered|;
    var missingValues := MissingPeriods(ordered);
    checks := checks + [Check(MissingValues, |missingValues| == 0, MissingDetail(|missingValues|, total))];
    if |missingValues| > 0 {
      limitations := limitations + [MissingValuesFor(missingValues)];
    }
    status := Green;
    if AnyFailed(checks) {
      status := Amber;
    }
    if |ordered| < 3 {
      status := Red;
      limitations := limitations + [InsufficientLookback];
    }
  }

  /** With no dated observation the series is red with the one failing availability check. */
  lemma QualityUnavailable(obs: seq<Observation>, frequency: string, today: Day)
    requires forall i :: 0 <= i < |obs| ==> obs[i].0.None?
    ensures QualityOf(obs, frequency, today) ==
      Quality(Red, [Check(Availability, false, NoObservationsDetail)], [NoObservations])
  {
    DatedNone(obs);
  }

  /**
   * With a dated observation there are exactly the freshness and missing-value checks:
   * freshness passes when some period is within 40 days of today for a monthly series and
   * 120 days otherwise (which holds exactly when the latest one is), and the missing-value
   * check passes when every dated observation has a value.
   */
  lemma QualityCheckRules(obs: seq<Observation>, frequency: string, today: Day)
    requires exists i :: 0 <= i < |obs| && obs[i].0.Some?
    ensures var q := QualityOf(obs, frequency, today);
      |q.checks| == 2 && q.checks[0].name == Freshness && q.checks[1].name == MissingValues
      && (q.checks[0].ok <==> exists i :: 0 <= i < |obs| && obs[i].0.Some? && today - obs[i].0.value <= Tolerance(frequency))
      && (q.checks[1].ok <==> forall i :: 0 <= i < |obs| && obs[i].0.Some? ==> obs[i].1.Some?)
  {
    var ordered := DatedOrdered(obs);
    DatedLatest(obs);
    DatedAllValued(obs);
    assert QualityOf(obs, frequency, today) == Graded(ordered, frequency, today);
    GradedChecks(ordered, frequency, today);
    var latest := ordered[|ordered| - 1].0;
    var m :| 0 <= m < |obs| && obs[m].0 == Some(latest);
    assert obs[m].0.Some? && obs[m].0.value == latest;
  }

  /** The two checks of a graded series, over its ordered dated observations. */
  lemma GradedChecks(ordered: seq<(Day, Option<real>)>, frequency: string, today: Day)
    requires ordered != []
    ensures var q := Graded(ordered, frequency, today);
      var n := |ordered|;
      |q.checks| == 2 && q.checks[0].name == Freshness && q.checks[1].name == MissingValues
      && (q.checks[0].ok <==> today - ordered[n - 1].0 <= Tolerance(frequency))
      && (q.checks[1].ok <==> forall i :: 0 <= i < n ==> ordered[i].1.Some?)
  {
    MissingPeriodsEmpty(ordered);
  }

  /** The last dated observation in period order has the greatest period of any observation. */
  lemma DatedLatest(obs: seq<Observation>)
    requires exists i :: 0 <= i < |obs| && obs[i].0.Some?
    ensures var ordered := DatedOrdered(obs);
      ordered != []
      && (exists m :: 0 <= m < |obs| && obs[m].0 == Some(ordered[|ordered| - 1].0))
      && forall i :: 0 <= i < |obs| && obs[i].0.Some? ==> obs[i].0.value <= ordered[|ordered| - 1].0
  {
    var ordered := DatedOrdered(obs);
    DatedOrderedMembers(obs);
    var k :| 0 <= k < |obs| && obs[k].0.Some?;
    assert (obs[k].0.value, obs[k].1) in ordered;
    var latest := ordered[|ordered| - 1];
    assert latest in ordered;
    LastIsMax(ordered);
    assert (Some(latest.0), latest.1) in obs;
    var m :| 0 <= m < |obs| && obs[m] == (Some(latest.0), latest.1);
    assert obs[m].0 == Some(latest.0);
    forall i | 0 <= i < |obs| && obs[i].0.Some?
      ensures obs[i].0.value <= latest.0
    {
      assert (obs[i].0.value, obs[i].1) in ordered;
    }
  }

  /** Every ordered dated observation has a value exactly when every dated observation does. */
  lemma DatedAllValued(obs: seq<Observation>)
    ensures var ordered := DatedOrdered(obs);
      (forall i :: 0 <= i < |ordered| ==> ordered[i].1.Some?)
      <==> (forall i :: 0 <= i < |obs| && obs[i].0.Some? ==> obs[i].1.Some?)
  {
    var ordered := DatedOrdered(obs);
    DatedOrderedMembers(obs);
    if forall i :: 0 <= i < |ordered| ==> ordered[i].1.Some? {
      forall i | 0 <= i < |obs| && obs[i].0.Some? ensures obs[i].1.Some? {
        var p := (obs[i].0.value, obs[i].1);
        assert p in ordered;
        var j :| 0 <= j < |ordered| && ordered[j] == p;
      }
    }
    if forall i :: 0 <= i < |obs| && obs[i].0.Some? ==> obs[i].1.Some? {
      forall j | 0 <= j < |ordered| ensures ordered[j].1.Some? {
        assert ordered[j] in ordered;
        assert (Some(ordered[j].0), ordered[j].1) in obs;
      }
    }
  }

  /**
   * Fewer than three dated observations force red and report the short window; from
   * three on, the series is green exactly when both checks pass and amber otherwise.
   */
  lemma QualityGrade(obs: seq<Observation>, frequency: string, today: Day)
    requires exists i :: 0 <= i < |obs| && obs[i].0.Some?
    ensures var q := QualityOf(obs, frequency, today);
      var n := |Dated(obs)|;
      |q.checks| == 2
      && (n < 3 ==> q.status == Red && InsufficientLookback in q.limitations)
      && (n >= 3 ==> (q.status == Green <==> q.checks[0].ok && q.checks[1].ok))
      && (n >= 3 ==> (q.status == Amber <==> !(q.checks[0].ok && q.checks[1].ok)))
  {
    var ordered := DatedOrdered(obs);
    DatedOrderedMembers(obs);
    var k :| 0 <= k < |obs| && obs[k].0.Some?;
    assert (obs[k].0.value, obs[k].1) in ordered;
    var q := Graded(ordered, frequency, today);
    assert QualityOf(obs, frequency, today) == q;
    var latest := ordered[|ordered| - 1].0;
    var missing := MissingPeriods(ordered);
    LimitationsMembers(today - latest <= Tolerance(frequency), missing, |ordered| < 3);
    AnyFailedMeans(q.checks);
  }

  /**
   * The limitations a graded series reports: stale data exactly when the freshness check
   * fails, one missing-value entry exactly when the missing-value check fails, listing
   * only dated observations without a value, and nothing else but the short-window note.
   */
  lemma QualityLimitations(obs: seq<Observation>, frequency: string, today: Day)
    requires exists i :: 0 <= i < |obs| && obs[i].0.Some?
    ensures var q := QualityOf(obs, frequency, today);
      |q.checks| == 2
      && (q.checks[0].ok <==> StaleData !in q.limitations)
      && (q.checks[1].ok <==> forall l :: l in q.limitations ==> !l.MissingValuesFor?)
      && (forall l :: l in q.limitations && l.MissingValuesFor? ==>
            l.periods != [] && forall d :: d in l.periods ==> (Some(d), None) in obs)
      && (forall l :: l in q.limitations ==> l.StaleData? || l.MissingValuesFor? || l.InsufficientLookback?)
  {
    var ordered := DatedOrdered(obs);
    DatedLatest(obs);
    assert QualityOf(obs, frequency, today) == Graded(ordered, frequency, today);
    GradedLimitations(ordered, frequency, today);
    DatedOrderedMembers(obs);
    forall p | p in ordered ensures (Some(p.0), p.1) in obs {
    }
  }

  /** The limitations of a graded series, over its ordered dated observations. */
  lemma GradedLimitations(ordered: seq<(Day, Option<real>)>, frequency: string, today: Day)
    requires ordered != []
    ensures var q := Graded(ordered, frequency, today);
      |q.checks| == 2
      && (q.checks[0].ok <==> StaleData !in q.limitations)
      && (q.checks[1].ok <==> forall l :: l in q.limitations ==> !l.MissingValuesFor?)
      && (forall l :: l in q.limitations && l.MissingValuesFor? ==>
            l.periods != [] && forall d :: d in l.periods ==> (d, None) in ordered)
      && (forall l :: l in q.limitations ==> l.StaleData? || l.MissingValuesFor? || l.InsufficientLookback?)
  {
    var latest := ordered[|ordered| - 1].0;
    var missing := MissingPeriods(ordered);
    LimitationsMembers(today - latest <= Tolerance(frequency), missing, |ordered| < 3);
    MissingPeriodsMembers(ordered);
    if |missing| > 0 {
      assert MissingValuesFor(missing) in Graded(ordered, frequency, today).limitations;
    }
  }

  /** Exactly the limitations whose condition holds are reported. */
  lemma LimitationsMembers(isFresh: bool, missing: seq<Day>, short: bool)
    ensures forall l :: l in Limitations(isFresh, missing, short) <==>
      (l == StaleData && !isFresh) || (l == MissingValuesFor(missing) && |missing| > 0)
      || (l == InsufficientLookback && short)
  {
    var l1 := AppendIf([], !isFresh, StaleData);
    var l2 := AppendIf(l1, |missing| > 0, MissingValuesFor(missing));
    AppendIfMembers([], !isFresh, StaleData);
    AppendIfMembers(l1, |missing| > 0, MissingValuesFor(missing));
    AppendIfMembers(l2, short, InsufficientLookback);
  }

  lemma {:induction false} MissingPeriodsMembers(ordered: seq<(Day, Option<real>)>)
    ensures forall d :: d in MissingPeriods(ordered) ==> (d, None) in ordered
  {
    if ordered != [] {
      var init := ordered[..|ordered| - 1];
      MissingPeriodsMembers(init);
      assert forall p :: p in init ==> p in ordered;
    }
  }

  // ---------------------------------------------------------------------------------
  // One selected series

  /** The first `n` items, as Python's `s[:n]` (a negative `n` drops from the end). */
  function PyPrefix<T>(s: seq<T>, n: int): (r: seq<T>)
    ensures |r| <= |s| && r == s[..|r|]
    ensures n >= 0 ==> |r| == if |s| <= n then |s| else n
    ensures n < 0 ==> |r| == if |s| + n > 0 then |s| + n else 0
  {
    if n >= 0 then Take(s, n) else if |s| + n > 0 then s[..|s| + n] else []
  }

  /** `max(lookback_periods + 4, 12)` */
  function FetchLimit(lookback: int): (limit: int)
    ensures limit >= 12 && limit >= lookback + 4
    ensures limit == lookback + 4 || limit == 12
  {
    if lookback + 4 > 12 then lookback + 4 else 12
  }

  /** `_parse_period(row["period_label"])`; an empty label parses to nothing. */
  function PeriodOf(periodLabel: Json, parsePeriod: string -> Option<Day>): Option<Day> {
    match periodLabel
    case JStr(s) => if s == "" then None else parsePeriod(s)
    case _ => None
  }

  function ObservationOf(row: Json, parsePeriod: string -> Option<Day>, parseFloat: string -> Option<real>): Observation {
    (PeriodOf(Get(row, "period_label"), parsePeriod), FloatOf(Get(row, "value"), parseFloat))
  }

  /** The loop of `build_data_pack` that turns fetched rows into observations. */
  method Observations(rows: seq<Json>, parsePeriod: string -> Option<Day>, parseFloat: string -> Option<real>)
    returns (obs: seq<Observation>)
    ensures |obs| == |rows|
    ensures forall i :: 0 <= i < |rows| ==> obs[i] == ObservationOf(rows[i], parsePeriod, parseFloat)
  {
    obs := [];
    var i := 0;
    while i < |rows|
      invariant 0 <= i <= |rows|
      invariant |obs| == i
      invariant forall j :: 0 <= j < i ==> obs[j] == ObservationOf(rows[j], parsePeriod, parseFloat)
    {
      var row := rows[i];
      var parsed := PeriodOf(Get(row, "period_label"), parsePeriod);
      var value := FloatOf(Get(row, "value"), parseFloat);
      obs := obs + [(parsed, value)];
      i := i + 1;
    }
  }

  /** The query `build_data_pack` runs for a configuration; `None` for an unsupported provider. */
  function RequestFor(config: SourceConfig, selection: SelectedSeries, lookback: int): (r: Option<FetchRequest>)
    ensures r.Some? <==> config.provider in {"ONS", "OECD"}
    ensures r.Some? ==>
      r.value.limit == FetchLimit(lookback) && r.value.startPeriod == None && r.value.endPeriod == None
    ensures r.Some? && config.provider == "ONS" ==>
      r.value.OnsFetch? && r.value.datasetId == OrOpt(selection.datasetId, config.datasetId)
    ensures r.Some? && config.provider == "OECD" ==>
      r.value.OecdFetch? && r.value.datasetCode == config.datasetCode && r.value.location == Or(config.location, "GBR")
  {
    var limit := FetchLimit(lookback);
    var datasetId := OrOpt(selection.datasetId, config.datasetId);
    if config.provider == "ONS" then
      Some(OnsFetch(match config.seriesId case Some(s) => s case None => "", datasetId, None, None, limit))
    else if config.provider == "OECD" then
      Some(OecdFetch(config.datasetCode, Or(config.location, "GBR"), Or(config.subject, ""),
                     Or(config.measure, ""), Or(config.frequency, ""), None, None, limit))
    else None
  }

  /** The entry `build_data_pack` appends to `series` for one selection. */
  datatype SeriesPayload = SeriesPayload(
    seriesKey: string,
    seriesId: string,
    source: string,
    sourceSeriesId: string,
    name: string,
    unit: Option<string>,
    frequency: string,
    latestPeriod: Option<Day>,
    observations: seq<(Day, Option<real>)>,
    derived: Option<Stats>,
    pulledAt: string,
    ingestedAt: Option<string>,
    qualityStatus: Status,
    qualityChecks: seq<Check>)

  /**
   * What the world supplies: the configuration table, the rows each query returns, the
   * two parsers, today's date and the pull timestamp.
   */
  datatype PackEnv = PackEnv(
    configs: seq<SourceConfig>,
    rowsFor: FetchRequest -> seq<Json>,
    parsePeriod: string -> Option<Day>,
    parseFloat: string -> Option<real>,
    today: Day,
    pulledAt: string)

  datatype Outcome = Skipped(limitation: Limitation) | Included(payload: SeriesPayload, limitations: seq<Limitation>)

  function ObservationsOf(rows: seq<Json>, env: PackEnv): (obs: seq<Observation>)
    ensures |obs| == |rows|
  {
    seq(|rows|, i requires 0 <= i < |rows| => ObservationOf(rows[i], env.parsePeriod, env.parseFloat))
  }

  function PayloadOf(selection: SelectedSeries, config: SourceConfig, obs: seq<Observation>, lookback: int, env: PackEnv): SeriesPayload {
    var frequency := DetermineFrequency(config);
    var derived := DeriveStats(obs, frequency);
    var q := QualityOf(obs, frequency, env.today);
    SeriesPayload(
      Or(selection.alias, config.slug),
      Or(config.seriesId, config.slug),
      config.provider,
      selection.sourceSeriesId,
      Or(config.description, config.slug),
      config.unit,
      frequency,
      if derived.Some? then Some(derived.value.latestPeriod) else None,
      Dated(PyPrefix(obs, lookback)),
      derived,
      env.pulledAt,
      config.updatedAt,
      q.status,
      q.checks)
  }

  /** One iteration of the selection loop of `build_data_pack`. */
  function Process(selection: SelectedSeries, lookback: int, env: PackEnv): Outcome {
    match FindBySource(env.configs, selection.source, selection.sourceSeriesId)
    case None => Skipped(SeriesNotConfigured(selection.source, selection.sourceSeriesId))
    case Some(config) =>
      match RequestFor(config, selection, lookback)
      case None => Skipped(ProviderNotSupported(config.provider))
      case Some(request) =>
        var obs := ObservationsOf(env.rowsFor(request), env);
        Included(PayloadOf(selection, config, obs, lookback, env),
                 QualityOf(obs, DetermineFrequency(config), env.today).limitations)
  }

  /** The `series` list after processing `selections` in order. */
  function PackSeries(selections: seq<SelectedSeries>, lookback: int, env: PackEnv): (r: seq<SeriesPayload>)
    ensures |r| <= |selections|
  {
    if selections == [] then []
    else
      var init := selections[..|selections| - 1];
      PackSeries(init, lookback, env)
      + match Process(selections[|selections| - 1], lookback, env)
        case Included(p, _) => [p]
        case Skipped(_) => []
  }

  /** The `data_limitations` list after processing `selections` in order. */
  function PackLimitations(selections: seq<SelectedSeries>, lookback: int, env: PackEnv): seq<Limitation> {
    if selections == [] then []
    else
      var init := selections[..|selections| - 1];
      PackLimitations(init, lookback, env)
      + match Process(selections[|selections| - 1], lookback, env)
        case Included(_, l) => l
        case Skipped(m) => [m]
  }

  // ---------------------------------------------------------------------------------
  // Aggregation and the pack

  /** Red if any series is red, else amber if any is amber, else green. */
  function Aggregate(series: seq<SeriesPayload>): Status {
    if exists i :: 0 <= i < |series| && series[i].qualityStatus == Red then Red
    else if exists i :: 0 <= i < |series| && series[i].qualityStatus == Amber then Amber
    else Green
  }

  function Worse(a: Status, b: Status): (w: Status)
    ensures Rank(w) == if Rank(a) >= Rank(b) then Rank(a) else Rank(b)
  {
    if Rank(a) >= Rank(b) then a else b
  }

  /** The worst grade, folded over the series. */
  function WorstOf(series: seq<SeriesPayload>): Status {
    if series == [] then Green else Worse(WorstOf(series[..|series| - 1]), series[|series| - 1].qualityStatus)
  }

  /** The aggregate status is the worst series grade. */
  lemma {:induction false} AggregateIsWorst(series: seq<SeriesPayload>)
    ensures Aggregate(series) == WorstOf(series)
  {
    if series != [] {
      var init := series[..|series| - 1];
      AggregateIsWorst(init);
      assert forall i :: 0 <= i < |init| ==> init[i] == series[i];
      if exists i :: 0 <= i < |init| && init[i].qualityStatus == Red {
        var i :| 0 <= i < |init| && init[i].qualityStatus == Red;
        assert series[i].qualityStatus == Red;
      } else if exists i :: 0 <= i < |init| && init[i].qualityStatus == Amber {
        var i :| 0 <= i < |init| && init[i].qualityStatus == Amber;
        assert series[i].qualityStatus == Amber;
      }
    }
  }

  datatype DataPack = DataPack(
    topic: string,
    asOf: Option<string>,
    lookbackPeriods: int,
    series: seq<SeriesPayload>,
    status: Status,
    coverage: Check,
    limitations: seq<Limitation>,
    hash: string)

  /** The pack `build_data_pack` assembles, stated field by field. */
  function PackFor(
    topic: string, selected: seq<SelectedSeries>, options: BriefingOptions, env: PackEnv,
    hash: (string, seq<SeriesPayload>) -> string): DataPack
  {
    var series := PackSeries(selected, options.lookbackPeriods, env);
    DataPack(topic, options.asOf, options.lookbackPeriods, series, Aggregate(series),
             Check(Coverage, |series| > 0, CoverageDetail(|series|)),
             PackLimitations(selected, options.lookbackPeriods, env), hash(topic, series))
  }

  /**
   * `build_data_pack(topic, selected_series, options)`. `hash` stands for SHA-256 over the
   * sorted-key JSON serialisation of `{"topic": ..., "series": ...}`.
   */
  method BuildDataPack(
    topic: string, selected: seq<SelectedSeries>, options: BriefingOptions, env: PackEnv,
    hash: (string, seq<SeriesPayload>) -> string)
    returns (pack: DataPack)
    ensures pack.series == PackSeries(selected, options.lookbackPeriods, env)
    ensures pack.limitations == PackLimitations(selected, options.lookbackPeriods, env)
    ensures pack.status == Aggregate(pack.series)
    ensures pack.coverage == Check(Coverage, |pack.series| > 0, CoverageDetail(|pack.series|))
    ensures pack.hash == hash(topic, pack.series)
    ensures pack.topic == topic && pack.asOf == options.asOf && pack.lookbackPeriods == options.lookbackPeriods
    ensures pack == PackFor(topic, selected, options, env, hash)
  {
    var lookback := options.lookbackPeriods;
    var seriesPayloads: seq<SeriesPayload> := [];
    var limitations: seq<Limitation> := [];
    var i := 0;
    while i < |selected|
      invariant 0 <= i <= |selected|
      invariant seriesPayloads == PackSeries(selected[..i], lookback, env)
      invariant limitations == PackLimitations(selected[..i], lookback, env)
    {
      var selection := selected[i];
      assert selected[..i + 1][..i] == selected[..i];
      var config := FindBySource(env.configs, selection.source, selection.sourceSeriesId);
      if config.None? {
        limitations := limitations + [SeriesNotConfigured(selection.source, selection.sourceSeriesId)];
      } else {
        var request := RequestFor(config.value, selection, lookback);
        if request.None? {
          limitations := limitations + [ProviderNotSupported(config.value.provider)];
        } else {
          var rows := env.rowsFor(request.value);
          var observations := Observations(rows, env.parsePeriod, env.parseFloat);
          assert observations == ObservationsOf(rows, env);
          var frequency := DetermineFrequency(config.value);
          var derived := DeriveStats(observations, frequency);
          var status, checks, seriesLimits := QualityChecks(observations, frequency, env.today);
          limitations := limitations + seriesLimits;
          seriesPayloads := seriesPayloads + [PayloadOf(selection, config.value, observations, lookback, env)];
        }
      }
      i := i + 1;
    }
    assert selected[..|selected|] == selected;
    var aggregateStatus := Green;
    if exists k :: 0 <= k < |seriesPayloads| && seriesPayloads[k].qualityStatus == Red {
      aggregateStatus := Red;
    } else if exists k :: 0 <= k < |seriesPayloads| && seriesPayloads[k].qualityStatus == Amber {
      aggregateStatus := Amber;
    }
    pack := DataPack(
      topic, options.asOf, lookback, seriesPayloads, aggregateStatus,
      Check(Coverage, |seriesPayloads| > 0, CoverageDetail(|seriesPayloads|)),
      limitations, hash(topic, seriesPayloads));
  }

  // ---------------------------------------------------------------------------------
  // Properties of the selection loop

  /**
   * The configuration lookup only ever returns ONS and OECD rows, so the "not supported"
   * branch is never taken: a selection is skipped exactly when it has no configuration.
   */
  lemma ProcessSkipsOnlyUnconfigured(selection: SelectedSeries, lookback: int, env: PackEnv)
    ensures Process(selection, lookback, env).Skipped? <==>
      FindBySource(env.configs, selection.source, selection.sourceSeriesId).None?
    ensures Process(selection, lookback, env).Skipped? ==>
      Process(selection, lookback, env).limitation == SeriesNotConfigured(selection.source, selection.sourceSeriesId)
  {
  }

  /** An unconfigured selection adds exactly one limitation and no series. */
  lemma UnconfiguredAddsOneLimitation(selections: seq<SelectedSeries>, selection: SelectedSeries, lookback: int, env: PackEnv)
    requires FindBySource(env.configs, selection.source, selection.sourceSeriesId).None?
    ensures PackSeries(selections + [selection], lookback, env) == PackSeries(selections, lookback, env)
    ensures PackLimitations(selections + [selection], lookback, env) == PackLimitations(selections, lookback, env) + [SeriesNotConfigured(selection.source, selection.sourceSeriesId)]
  {
    assert (selections + [selection])[..|selections|] == selections;
  }

  /**
   * An included series keeps at most `lookback_periods` observations, all taken in order
   * from the first `lookback_periods` fetched rows and all dated; its latest period and its
   * grade are those of its statistics and quality checks.
   */
  lemma IncludedPayload(selection: SelectedSeries, lookback: int, env: PackEnv)
    requires lookback >= 0
    requires Process(selection, lookback, env).Included?
    ensures var config := FindBySource(env.configs, selection.source, selection.sourceSeriesId).value;
      var request := RequestFor(config, selection, lookback).value;
      var obs := ObservationsOf(env.rowsFor(request), env);
      var p := Process(selection, lookback, env).payload;
      request.limit == FetchLimit(lookback)
      && |p.observations| <= lookback
      && p.observations == Dated(PyPrefix(obs, lookback))
      && (forall o :: o in p.observations ==> (Some(o.0), o.1) in PyPrefix(obs, lookback))
      && p.derived == DeriveStats(obs, p.frequency)
      && p.latestPeriod == (if p.derived.Some? then Some(p.derived.value.latestPeriod) else None)
      && p.qualityStatus == QualityOf(obs, p.frequency, env.today).status
      && p.source in {"ONS", "OECD"} && p.sourceSeriesId == selection.sourceSeriesId
  {
  }

  predicate Configured(selection: SelectedSeries, env: PackEnv) {
    FindBySource(env.configs, selection.source, selection.sourceSeriesId).Some?
  }

  /** The number of selections that have a configuration. */
  function ConfiguredCount(selections: seq<SelectedSeries>, env: PackEnv): (n: nat)
    ensures n <= |selections|
  {
    if selections == [] then 0
    else ConfiguredCount(selections[..|selections| - 1], env)
         + (if Configured(selections[|selections| - 1], env) then 1 else 0)
  }

  /** The pack holds one series per configured selection, so never more than were selected. */
  lemma {:induction false} PackSeriesCount(selections: seq<SelectedSeries>, lookback: int, env: PackEnv)
    ensures |PackSeries(selections, lookback, env)| == ConfiguredCount(selections, env)
  {
    if selections != [] {
      var init := selections[..|selections| - 1];
      var last := selections[|selections| - 1];
      PackSeriesCount(init, lookback, env);
      ProcessSkipsOnlyUnconfigured(last, lookback, env);
    }
  }

  /**
   * The hash covers only the topic and the series: packs that agree on those agree on
   * the hash whatever their `as_of`, limitations or quality.
   */
  lemma HashIgnoresRest(p1: DataPack, p2: DataPack, hash: (string, seq<SeriesPayload>) -> string)
    requires p1.hash == hash(p1.topic, p1.series) && p2.hash == hash(p2.topic, p2.series)
    requires p1.topic == p2.topic && p1.series == p2.series
    ensures p1.hash == p2.hash
  {
  }
}
