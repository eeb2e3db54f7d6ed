/**
 * The synthetic data service: seeds one configured series with a monthly run of generated
 * observations, for the ONS or the OECD table, skipping a series that already has rows
 * unless `force` asks to delete and reseed it.
 */
module Synthetic {
  import opened Base
  import opened Sorting
  import opened Calendar
  import opened EconomicData

  // ---------------------------------------------------------------------------------
  // The generated series

  /** The `"%Y-%m-01"` labels of the `count` months ending with `today`, oldest first. */
  function DayLabels(today: YearMonth, count: nat): (labels: seq<string>)
    requires Valid(today) && count <= Ordinal(today) + 1
    ensures |labels| == count
  {
    var ms := MonthsEnding(today, count);
    seq(count, k requires 0 <= k < count => DayLabel(ms[k]))
  }

  /** `list(zip(labels, values))`, where `draw(k)` is the k-th generated value. */
  function MonthSeries(today: YearMonth, periods: nat, draw: nat -> real): (s: seq<(string, real)>)
    requires Valid(today) && periods <= Ordinal(today) + 1
    ensures |s| == periods
  {
    var labels := DayLabels(today, periods);
    seq(periods, k requires 0 <= k < periods => (labels[k], draw(k)))
  }

  /**
   * The series ends with the current month, its labels never repeat, each label is the
   * first of the month after the one before, and with four-digit years they ascend as text.
   */
  lemma MonthSeriesSpec(today: YearMonth, periods: nat, draw: nat -> real)
    requires Valid(today) && periods <= Ordinal(today) + 1
    ensures var s := MonthSeries(today, periods, draw);
      (periods > 0 ==> s[periods - 1].0 == DayLabel(today))
      && (forall j, k :: 0 <= j < k < periods ==> s[j].0 != s[k].0)
      && (forall k :: 0 <= k < periods - 1 ==>
            (s[k].0 == DayLabel(MonthsEnding(today, periods)[k])
             && Prev(MonthsEnding(today, periods)[k + 1]) == Ok(MonthsEnding(today, periods)[k])))
      && (periods > 0 && MonthsEnding(today, periods)[0].year >= 1000 ==>
            forall k :: 0 <= k < periods - 1 ==> StrLt(s[k].0, s[k + 1].0))
  {
    var s := MonthSeries(today, periods, draw);
    var ms := MonthsEnding(today, periods);
    MonthsEndingSpec(today, periods);
    assert forall k :: 0 <= k < periods ==> s[k].0 == DayLabel(ms[k]);
    forall j, k | 0 <= j < k < periods ensures s[j].0 != s[k].0 {
      DayLabelInjective(ms[j], ms[k]);
    }
    if periods > 0 && ms[0].year >= 1000 {
      forall k | 0 <= k < periods - 1 ensures StrLt(s[k].0, s[k + 1].0) {
        assert Ordinal(ms[0]) <= Ordinal(ms[k]);
        DayLabelOrder(ms[k], ms[k + 1]);
      }
    }
  }

  /**
   * `_generate_month_series(periods)`: walks back from `today` appending first-of-month
   * labels, reverses them in place, draws `periods` values and zips the two. The walk
   * raises once it would step before January of year 1.
   */
  method GenerateMonthSeries(periods: nat, today: YearMonth, draw: nat -> real) returns (r: Result<seq<(string, real)>>)
    requires Valid(today)
    ensures r.Err? <==> periods > Ordinal(today)
    ensures r.Err? ==> r.error == YearOutOfRange
    ensures r.Ok? ==> r.value == MonthSeries(today, periods, draw)
  {
    var labels: seq<string> := [];
    var current := today;
    var i := 0;
    while i < periods
      invariant 0 <= i <= periods && i <= Ordinal(today)
      invariant Valid(current) && Ordinal(current) == Ordinal(today) - i
      invariant |labels| == i
      invariant forall k :: 0 <= k < i ==> labels[k] == DayLabel(Back(today, k))
    {
      labels := labels + [DayLabel(current)];
      OrdinalInjective(current, Back(today, i));
      var prev := Prev(current);
      if prev.Err? {
        return Err(prev.error);
      }
      current := prev.value;
      i := i + 1;
    }
    var walked := labels;
    labels := Reverse(walked);
    var values: seq<real> := [];
    var j := 0;
    while j < periods
      invariant 0 <= j <= periods
      invariant |values| == j && forall k :: 0 <= k < j ==> values[k] == draw(k)
    {
      values := values + [draw(j)];
      j := j + 1;
    }
    var ms := MonthsEnding(today, periods);
    var zipped := seq(periods, k requires 0 <= k < periods => (labels[k], values[k]));
    forall k | 0 <= k < periods ensures zipped[k] == MonthSeries(today, periods, draw)[k] {
      ReverseAt(walked, k);
      OrdinalInjective(ms[k], Back(today, periods - 1 - k));
    }
    return Ok(zipped);
  }

  // ---------------------------------------------------------------------------------
  // Seeding one ONS series

  const SeededMetadata: Json := JObj([("seeded", JBool(true))])

  /** `config.get("series_id") or config.get("slug")`. */
  function SeriesIdOf(c: SourceConfig): string {
    Or(c.seriesId, c.slug)
  }

  /** One row of `_seed_ons_series`, with its fallbacks for dataset, title, unit and measure. */
  function SeededOnsRow(c: SourceConfig, period: string, value: real): (row: OnsRow)
    ensures OnsKeyOf(row) == OnsKey(JStr(SeriesIdOf(c)), JStr(period))
    ensures row.datasetId == JStr(Or(OrOpt(c.datasetId, c.datasetCode), "FAKE_DATASET"))
    ensures row.title == JStr(Or(c.description, SeriesIdOf(c)))
  {
    var sid := SeriesIdOf(c);
    OnsRow(JStr(Or(OrOpt(c.datasetId, c.datasetCode), "FAKE_DATASET")), JStr(sid),
           JStr(Or(c.description, sid)), JStr(period), JNum(value),
           JStr(Or(c.unit, "Index")), JStr(Or(c.measure, "Index")), JStr("months"), SeededMetadata)
  }

  function SeededOnsRows(c: SourceConfig, series: seq<(string, real)>): (rows: seq<OnsRow>)
    ensures |rows| == |series|
    ensures forall i :: 0 <= i < |rows| ==> rows[i] == SeededOnsRow(c, series[i].0, series[i].1)
  {
    seq(|series|, i requires 0 <= i < |series| => SeededOnsRow(c, series[i].0, series[i].1))
  }

  /** `_count_rows(..., "series_id = %s", ...)` is non-zero. */
  predicate HasOnsSeries(ons: map<OnsKey, OnsRow>, sid: string) {
    exists k :: k in ons && k.seriesId == JStr(sid)
  }

  /** `DELETE FROM ons_economic_series WHERE series_id = %s`. */
  function WithoutOnsSeries(ons: map<OnsKey, OnsRow>, sid: string): (r: map<OnsKey, OnsRow>)
    ensures !HasOnsSeries(r, sid)
    ensures forall k :: k in ons && k.seriesId != JStr(sid) ==> k in r && r[k] == ons[k]
    ensures forall k :: k in r ==> k in ons
  {
    map k | k in ons && k.seriesId != JStr(sid) :: ons[k]
  }

  /** The series is left alone: no series id, or rows exist and `force` is off. */
  predicate OnsSkipped(ons: map<OnsKey, OnsRow>, c: SourceConfig, force: bool) {
    SeriesIdOf(c) == "" || (HasOnsSeries(ons, SeriesIdOf(c)) && !force)
  }

  /** The table the insert runs against: the series deleted first when forced. */
  function OnsSeedBase(ons: map<OnsKey, OnsRow>, sid: string, force: bool): map<OnsKey, OnsRow> {
    if force && HasOnsSeries(ons, sid) then WithoutOnsSeries(ons, sid) else ons
  }

  /**
   * What `_seed_ons_series(config, periods, force)` returns and leaves in the table. The
   * delete is committed before the series is generated, so a failing walk keeps it.
   */
  function OnsSeedOutcome(ons: map<OnsKey, OnsRow>, c: SourceConfig, periods: nat, force: bool,
                          today: YearMonth, draw: nat -> real): (o: (Result<nat>, map<OnsKey, OnsRow>))
    requires Valid(today)
    ensures OnsSkipped(ons, c, force) ==> o == (Ok(0), ons)
    ensures !OnsSkipped(ons, c, force) ==> (o.0.Err? <==> periods > Ordinal(today))
    ensures o.0.Ok? && !OnsSkipped(ons, c, force) ==> o.0.value == periods
  {
    var sid := SeriesIdOf(c);
    if OnsSkipped(ons, c, force) then (Ok(0), ons)
    else
      var base := OnsSeedBase(ons, sid, force);
      if periods > Ordinal(today) then (Err(YearOutOfRange), base)
      else
        var rows := SeededOnsRows(c, MonthSeries(today, periods, draw));
        (Ok(|rows|), Upsert(base, rows, OnsKeyOf, OnsStoreConflict))
  }

  /** Rows of one series, with distinct period labels, have distinct keys. */
  lemma SeededOnsDistinct(c: SourceConfig, series: seq<(string, real)>)
    requires forall j, k :: 0 <= j < k < |series| ==> series[j].0 != series[k].0
    ensures DistinctKeys(SeededOnsRows(c, series), OnsKeyOf)
  {
    var rows := SeededOnsRows(c, series);
    forall i, j | 0 <= i < j < |rows| ensures OnsKeyOf(rows[i]) != OnsKeyOf(rows[j]) {
      assert OnsKeyOf(rows[i]).periodLabel == JStr(series[i].0);
    }
  }

  /**
   * A plain `INSERT` of rows with distinct keys into a table holding none of the series the
   * rows belong to (`on`) meets no existing key: the table stays keyed, keeps every stored
   * row, stores each new row as given, and the series then consists of exactly those rows.
   */
  lemma InsertFresh<K, R>(base: map<K, R>, rows: seq<R>, key: R -> K, merge: (R, R) -> R, on: K -> bool)
    requires KeyedBy(base, key) && DistinctKeys(rows, key)
    requires forall e, n :: key(merge(e, n)) == key(e)
    requires forall e, n :: key(e) == key(n) ==> merge(e, n) == n
    requires forall k :: k in base ==> !on(k)
    requires forall i :: 0 <= i < |rows| ==> on(key(rows[i]))
    ensures var t := Upsert(base, rows, key, merge);
      KeyedBy(t, key)
      && (forall i :: 0 <= i < |rows| ==> key(rows[i]) !in base)
      && (forall k :: k in base ==> k in t && t[k] == base[k])
      && (forall i :: 0 <= i < |rows| ==> key(rows[i]) in t && t[key(rows[i])] == rows[i])
      && (forall k :: k in t && on(k) <==> k in RowKeys(rows, key))
  {
    UpsertSpec(base, rows, key, merge);
    UpsertReplaces(base, rows, key, merge);
    var t := Upsert(base, rows, key, merge);
    forall k | k in RowKeys(rows, key) ensures on(k) && k !in base {
      var i :| 0 <= i < |rows| && key(rows[i]) == k;
    }
  }

  /**
   * A seeding that runs leaves the table keyed, and afterwards the series holds exactly the
   * generated rows, stored as built (the plain `INSERT` meets no existing key), while every
   * other series keeps its rows. A failing walk leaves the series deleted when forced.
   */
  lemma OnsSeedSpec(ons: map<OnsKey, OnsRow>, c: SourceConfig, periods: nat, force: bool,
                    today: YearMonth, draw: nat -> real)
    requires KeyedBy(ons, OnsKeyOf) && Valid(today) && !OnsSkipped(ons, c, force)
    ensures var o := OnsSeedOutcome(ons, c, periods, force, today, draw);
      KeyedBy(o.1, OnsKeyOf)
      && (forall k :: k in ons && k.seriesId != JStr(SeriesIdOf(c)) ==> k in o.1 && o.1[k] == ons[k])
      && (o.0.Err? ==> !HasOnsSeries(o.1, SeriesIdOf(c)) || !force)
      && (o.0.Ok? ==> var rows := SeededOnsRows(c, MonthSeries(today, periods, draw));
            (forall i :: 0 <= i < |rows| ==> OnsKeyOf(rows[i]) !in OnsSeedBase(ons, SeriesIdOf(c), force))
            && (forall i :: 0 <= i < |rows| ==> OnsKeyOf(rows[i]) in o.1 && o.1[OnsKeyOf(rows[i])] == rows[i])
            && (forall k :: k in o.1 && k.seriesId == JStr(SeriesIdOf(c)) <==> k in RowKeys(rows, OnsKeyOf)))
  {
    var sid := SeriesIdOf(c);
    assert !HasOnsSeries(OnsSeedBase(ons, sid, force), sid);
    if periods <= Ordinal(today) {
      MonthSeriesSpec(today, periods, draw);
      OnsInsertSeries(ons, c, force, MonthSeries(today, periods, draw));
    }
  }

  /** The insert step of a seeding that runs, for any series of distinct labels. */
  lemma OnsInsertSeries(ons: map<OnsKey, OnsRow>, c: SourceConfig, force: bool, series: seq<(string, real)>)
    requires KeyedBy(ons, OnsKeyOf) && !OnsSkipped(ons, c, force)
    requires forall j, k :: 0 <= j < k < |series| ==> series[j].0 != series[k].0
    ensures var base := OnsSeedBase(ons, SeriesIdOf(c), force);
      var rows := SeededOnsRows(c, series);
      var t := Upsert(base, rows, OnsKeyOf, OnsStoreConflict);
      KeyedBy(t, OnsKeyOf)
      && (forall k :: k in ons && k.seriesId != JStr(SeriesIdOf(c)) ==> k in t && t[k] == ons[k])
      && (forall i :: 0 <= i < |rows| ==> OnsKeyOf(rows[i]) !in base)
      && (forall i :: 0 <= i < |rows| ==> OnsKeyOf(rows[i]) in t && t[OnsKeyOf(rows[i])] == rows[i])
      && (forall k :: k in t && k.seriesId == JStr(SeriesIdOf(c)) <==> k in RowKeys(rows, OnsKeyOf))
  {
    var sid := SeriesIdOf(c);
    var base := OnsSeedBase(ons, sid, force);
    assert !HasOnsSeries(base, sid);
    SeededOnsDistinct(c, series);
    InsertFresh(base, SeededOnsRows(c, series), OnsKeyOf, OnsStoreConflict, (k: OnsKey) => k.seriesId == JStr(sid));
  }

  /**
   * `_seed_ons_series(config, periods, force)` over the ONS table: returns and stores what
   * the outcome function says.
   */
  method SeedOnsSeries(tables: ObservationTables, c: SourceConfig, periods: nat, force: bool,
                       today: YearMonth, draw: nat -> real) returns (r: Result<nat>)
    requires tables.Valid() && Valid(today)
    modifies tables
    ensures tables.Valid() && tables.oecd == old(tables.oecd)
    ensures (r, tables.ons) == OnsSeedOutcome(old(tables.ons), c, periods, force, today, draw)
  {
    var sid := SeriesIdOf(c);
    if sid == "" {
      return Ok(0);
    }
    var existing := HasOnsSeries(tables.ons, sid);
    if existing && !force {
      return Ok(0);
    }
    OnsSeedSpec(tables.ons, c, periods, force, today, draw);
    if force && existing {
      tables.ons := WithoutOnsSeries(tables.ons, sid);
    }
    var series := GenerateMonthSeries(periods, today, draw);
    if series.Err? {
      return Err(series.error);
    }
    var rows := SeededOnsRows(c, series.value);
    tables.ons := Upsert(tables.ons, rows, OnsKeyOf, OnsStoreConflict);
    return Ok(|rows|);
  }

  // ---------------------------------------------------------------------------------
  // Seeding one OECD series

  /** The columns that pick out the OECD series being seeded. */
  datatype Target = Target(datasetCode: string, location: string, subject: string, measure: string, frequency: string)

  /** The fallbacks of `_seed_oecd_series`. */
  function TargetOf(c: SourceConfig): (t: Target)
    ensures t.datasetCode == Or(OrOpt(c.datasetCode, c.datasetId), "FAKE_MEI")
    ensures t.location == Or(c.location, "GBR") && t.subject == Or(c.subject, SeriesIdOf(c))
    ensures t.measure == Or(c.measure, "STSA") && t.frequency == Or(c.frequency, "M")
    ensures !Present(c.datasetCode) && !Present(c.datasetId) ==> t.datasetCode == "FAKE_MEI"
    ensures !Present(c.location) ==> t.location == "GBR"
    ensures !Present(c.subject) && !Present(c.seriesId) ==> t.subject == c.slug
    ensures !Present(c.measure) ==> t.measure == "STSA"
    ensures !Present(c.frequency) ==> t.frequency == "M"
  {
    Target(Or(OrOpt(c.datasetCode, c.datasetId), "FAKE_MEI"), Or(c.location, "GBR"),
           Or(c.subject, SeriesIdOf(c)), Or(c.measure, "STSA"), Or(c.frequency, "M"))
  }

  /** `COALESCE(column, '')`. */
  function CoalesceText(j: Json): (r: Json)
    ensures j != JNull ==> r == j
  {
    if j == JNull then JStr("") else j
  }

  /** The `WHERE` clause of the count and the delete. */
  predicate OnTarget(k: OecdKey, t: Target) {
    k.datasetCode == JStr(t.datasetCode) && k.location == JStr(t.location)
    && CoalesceText(k.subject) == JStr(t.subject) && CoalesceText(k.measure) == JStr(t.measure)
    && CoalesceText(k.frequency) == JStr(t.frequency)
  }

  predicate HasOecdSeries(oecd: map<OecdKey, OecdRow>, t: Target) {
    exists k :: k in oecd && OnTarget(k, t)
  }

  function WithoutOecdSeries(oecd: map<OecdKey, OecdRow>, t: Target): (r: map<OecdKey, OecdRow>)
    ensures !HasOecdSeries(r, t)
    ensures forall k :: k in oecd && !OnTarget(k, t) ==> k in r && r[k] == oecd[k]
    ensures forall k :: k in r ==> k in oecd
  {
    map k | k in oecd && !OnTarget(k, t) :: oecd[k]
  }

  /** One row of `_seed_oecd_series`. */
  function SeededOecdRow(c: SourceConfig, period: string, value: real): (row: OecdRow)
    ensures OnTarget(OecdKeyOf(row), TargetOf(c)) && row.periodLabel == JStr(period)
    ensures row.unit == JStr(Or(c.unit, "Index"))
  {
    var t := TargetOf(c);
    OecdRow(JStr(t.datasetCode), JStr(t.location), JStr(t.subject), JStr(t.measure), JStr(t.frequency),
            JStr(period), JNum(value), JStr(Or(c.unit, "Index")), SeededMetadata)
  }

  function SeededOecdRows(c: SourceConfig, series: seq<(string, real)>): (rows: seq<OecdRow>)
    ensures |rows| == |series|
    ensures forall i :: 0 <= i < |rows| ==> rows[i] == SeededOecdRow(c, series[i].0, series[i].1)
  {
    seq(|series|, i requires 0 <= i < |series| => SeededOecdRow(c, series[i].0, series[i].1))
  }

  function OecdSeedBase(oecd: map<OecdKey, OecdRow>, t: Target, force: bool): map<OecdKey, OecdRow> {
    if force && HasOecdSeries(oecd, t) then WithoutOecdSeries(oecd, t) else oecd
  }

  /** What `_seed_oecd_series(config, periods, force)` returns and leaves in the table. */
  function OecdSeedOutcome(oecd: map<OecdKey, OecdRow>, c: SourceConfig, periods: nat, force: bool,
                           today: YearMonth, draw: nat -> real): (o: (Result<nat>, map<OecdKey, OecdRow>))
    requires Valid(today)
    ensures HasOecdSeries(oecd, TargetOf(c)) && !force ==> o == (Ok(0), oecd)
    ensures !(HasOecdSeries(oecd, TargetOf(c)) && !force) ==> (o.0.Err? <==> periods > Ordinal(today))
    ensures o.0.Ok? && !(HasOecdSeries(oecd, TargetOf(c)) && !force) ==> o.0.value == periods
  {
    var t := TargetOf(c);
    var existing := HasOecdSeries(oecd, t);
    if existing && !force then (Ok(0), oecd)
    else
      var base := OecdSeedBase(oecd, t, force);
      if periods > Ordinal(today) then (Err(YearOutOfRange), base)
      else
        var rows := SeededOecdRows(c, MonthSeries(today, periods, draw));
        (Ok(|rows|), Upsert(base, rows, OecdKeyOf, OecdStoreConflict))
  }

  lemma SeededOecdDistinct(c: SourceConfig, series: seq<(string, real)>)
    requires forall j, k :: 0 <= j < k < |series| ==> series[j].0 != series[k].0
    ensures DistinctKeys(SeededOecdRows(c, series), OecdKeyOf)
  {
    var rows := SeededOecdRows(c, series);
    forall i, j | 0 <= i < j < |rows| ensures OecdKeyOf(rows[i]) != OecdKeyOf(rows[j]) {
      assert OecdKeyOf(rows[i]).periodLabel == JStr(series[i].0);
    }
  }

  /**
   * A seeding that runs leaves the table keyed; afterwards the rows on the target are
   * exactly the generated ones, stored as built, and rows off the target are untouched.
   */
  lemma OecdSeedSpec(oecd: map<OecdKey, OecdRow>, c: SourceConfig, periods: nat, force: bool,
                     today: YearMonth, draw: nat -> real)
    requires KeyedBy(oecd, OecdKeyOf) && Valid(today) && !(HasOecdSeries(oecd, TargetOf(c)) && !force)
    ensures var o := OecdSeedOutcome(oecd, c, periods, force, today, draw);
      KeyedBy(o.1, OecdKeyOf)
      && (forall k :: k in oecd && !OnTarget(k, TargetOf(c)) ==> k in o.1 && o.1[k] == oecd[k])
      && (o.0.Err? ==> !HasOecdSeries(o.1, TargetOf(c)) || !force)
      && (o.0.Ok? ==> var rows := SeededOecdRows(c, MonthSeries(today, periods, draw));
            (forall i :: 0 <= i < |rows| ==> OecdKeyOf(rows[i]) !in OecdSeedBase(oecd, TargetOf(c), force))
            && (forall i :: 0 <= i < |rows| ==> OecdKeyOf(rows[i]) in o.1 && o.1[OecdKeyOf(rows[i])] == rows[i])
            && (forall k :: k in o.1 && OnTarget(k, TargetOf(c)) <==> k in RowKeys(rows, OecdKeyOf)))
  {
    assert !HasOecdSeries(OecdSeedBase(oecd, TargetOf(c), force), TargetOf(c));
    if periods <= Ordinal(today) {
      MonthSeriesSpec(today, periods, draw);
      OecdInsertSeries(oecd, c, force, MonthSeries(today, periods, draw));
    }
  }

  /** The insert step of an OECD seeding that runs, for any series of distinct labels. */
  lemma OecdInsertSeries(oecd: map<OecdKey, OecdRow>, c: SourceConfig, force: bool, series: seq<(string, real)>)
    requires KeyedBy(oecd, OecdKeyOf) && !(HasOecdSeries(oecd, TargetOf(c)) && !force)
    requires forall j, k :: 0 <= j < k < |series| ==> series[j].0 != series[k].0
    ensures var base := OecdSeedBase(oecd, TargetOf(c), force);
      var rows := SeededOecdRows(c, series);
      var t := Upsert(base, rows, OecdKeyOf, OecdStoreConflict);
      KeyedBy(t, OecdKeyOf)
      && (forall k :: k in oecd && !OnTarget(k, TargetOf(c)) ==> k in t && t[k] == oecd[k])
      && (forall i :: 0 <= i < |rows| ==> OecdKeyOf(rows[i]) !in base)
      && (forall i :: 0 <= i < |rows| ==> OecdKeyOf(rows[i]) in t && t[OecdKeyOf(rows[i])] == rows[i])
      && (forall k :: k in t && OnTarget(k, TargetOf(c)) <==> k in RowKeys(rows, OecdKeyOf))
  {
    var tg := TargetOf(c);
    var base := OecdSeedBase(oecd, tg, force);
    assert !HasOecdSeries(base, tg);
    SeededOecdDistinct(c, series);
    InsertFresh(base, SeededOecdRows(c, series), OecdKeyOf, OecdStoreConflict, (k: OecdKey) => OnTarget(k, tg));
  }

  /** `_seed_oecd_series(config, periods, force)` over the OECD table. */
  method SeedOecdSeries(tables: ObservationTables, c: SourceConfig, periods: nat, force: bool,
                        today: YearMonth, draw: nat -> real) returns (r: Result<nat>)
    requires tables.Valid() && Valid(today)
    modifies tables
    ensures tables.Valid() && tables.ons == old(tables.ons)
    ensures (r, tables.oecd) == OecdSeedOutcome(old(tables.oecd), c, periods, force, today, draw)
  {
    var t := TargetOf(c);
    var existing := HasOecdSeries(tables.oecd, t);
    if existing && !force {
      return Ok(0);
    }
    OecdSeedSpec(tables.oecd, c, periods, force, today, draw);
    if force && existing {
      tables.oecd := WithoutOecdSeries(tables.oecd, t);
    }
    var series := GenerateMonthSeries(periods, today, draw);
    if series.Err? {
      return Err(series.error);
    }
    var rows := SeededOecdRows(c, series.value);
    tables.oecd := Upsert(tables.oecd, rows, OecdKeyOf, OecdStoreConflict);
    return Ok(|rows|);
  }

  // ---------------------------------------------------------------------------------
  // Dispatch

  function UnsupportedProvider(provider: string): string {
    "Provider '" + provider + "' is not supported for synthetic seeding."
  }

  function NoConfiguration(slug: string): string {
    "No configuration found for slug '" + slug + "'."
  }

  /** The two tables after `seed_series_by_config`, with its result. */
  datatype Seeded = Seeded(result: Result<nat>, ons: map<OnsKey, OnsRow>, oecd: map<OecdKey, OecdRow>)

  /** `seed_series_by_config`: the uppercased provider picks the seeder; any other raises. */
  function SeedOutcome(ons: map<OnsKey, OnsRow>, oecd: map<OecdKey, OecdRow>, c: SourceConfig,
                       periods: nat, force: bool, today: YearMonth, draw: nat -> real): (s: Seeded)
    requires Valid(today)
    ensures Upper(c.provider) != "ONS" ==> s.ons == ons
    ensures Upper(c.provider) != "OECD" ==> s.oecd == oecd
    ensures Upper(c.provider) != "ONS" && Upper(c.provider) != "OECD" ==>
      s.result == Err(UnsupportedProvider(Upper(c.provider)))
  {
    var provider := Upper(c.provider);
    if provider == "ONS" then
      var o := OnsSeedOutcome(ons, c, periods, force, today, draw);
      Seeded(o.0, o.1, oecd)
    else if provider == "OECD" then
      var o := OecdSeedOutcome(oecd, c, periods, force, today, draw);
      Seeded(o.0, ons, o.1)
    else Seeded(Err(UnsupportedProvider(provider)), ons, oecd)
  }

  /** The provider is matched without regard to case. */
  lemma SeedOutcomeIgnoresCase(ons: map<OnsKey, OnsRow>, oecd: map<OecdKey, OecdRow>, c: SourceConfig,
                               periods: nat, force: bool, today: YearMonth, draw: nat -> real)
    requires Valid(today)
    ensures SeedOutcome(ons, oecd, c.(provider := Upper(c.provider)), periods, force, today, draw)
      == SeedOutcome(ons, oecd, c, periods, force, today, draw)
  {
    UpperIdempotent(c.provider);
    OnsSeedIgnoresProvider(ons, c, Upper(c.provider), periods, force, today, draw);
    OecdSeedIgnoresProvider(oecd, c, Upper(c.provider), periods, force, today, draw);
  }

  /** The ONS seeder never reads the provider column. */
  lemma OnsSeedIgnoresProvider(ons: map<OnsKey, OnsRow>, c: SourceConfig, p: string,
                               periods: nat, force: bool, today: YearMonth, draw: nat -> real)
    requires Valid(today)
    ensures OnsSeedOutcome(ons, c.(provider := p), periods, force, today, draw)
      == OnsSeedOutcome(ons, c, periods, force, today, draw)
  {
    var c' := c.(provider := p);
    assert SeriesIdOf(c') == SeriesIdOf(c);
    assert forall period, value :: SeededOnsRow(c', period, value) == SeededOnsRow(c, period, value);
    if periods <= Ordinal(today) {
      var series := MonthSeries(today, periods, draw);
      assert SeededOnsRows(c', series) == SeededOnsRows(c, series);
    }
  }

  /** The OECD seeder never reads the provider column. */
  lemma OecdSeedIgnoresProvider(oecd: map<OecdKey, OecdRow>, c: SourceConfig, p: string,
                                periods: nat, force: bool, today: YearMonth, draw: nat -> real)
    requires Valid(today)
    ensures OecdSeedOutcome(oecd, c.(provider := p), periods, force, today, draw)
      == OecdSeedOutcome(oecd, c, periods, force, today, draw)
  {
    var c' := c.(provider := p);
    assert SeriesIdOf(c') == SeriesIdOf(c) && TargetOf(c') == TargetOf(c);
    assert forall period, value :: SeededOecdRow(c', period, value) == SeededOecdRow(c, period, value);
    if periods <= Ordinal(today) {
      var series := MonthSeries(today, periods, draw);
      assert SeededOecdRows(c', series) == SeededOecdRows(c, series);
    }
  }

  /** `seed_series_by_config(config, periods, force)`. */
  method SeedSeriesByConfig(tables: ObservationTables, c: SourceConfig, periods: nat, force: bool,
                            today: YearMonth, draw: nat -> real) returns (r: Result<nat>)
    requires tables.Valid() && Valid(today)
    modifies tables
    ensures tables.Valid()
    ensures Seeded(r, tables.ons, tables.oecd) == SeedOutcome(old(tables.ons), old(tables.oecd), c, periods, force, today, draw)
  {
    var provider := Upper(c.provider);
    if provider == "ONS" {
      r := SeedOnsSeries(tables, c, periods, force, today, draw);
      return;
    }
    if provider == "OECD" {
      r := SeedOecdSeries(tables, c, periods, force, today, draw);
      return;
    }
    return Err(UnsupportedProvider(provider));
  }

  /** `seed_series_by_slug(slug, periods, force)`: the slug's enabled configuration, or an error. */
  function SeedBySlugOutcome(ons: map<OnsKey, OnsRow>, oecd: map<OecdKey, OecdRow>, configs: seq<SourceConfig>,
                             slug: string, periods: nat, force: bool, today: YearMonth, draw: nat -> real): (s: Seeded)
    requires Valid(today)
    ensures GetDataSourceConfig(configs, slug, None).None? ==> s == Seeded(Err(NoConfiguration(slug)), ons, oecd)
    ensures (forall c :: c in configs ==> !(c.slug == slug && c.enabled)) ==> s.result == Err(NoConfiguration(slug))
  {
    match GetDataSourceConfig(configs, slug, None)
    case None => Seeded(Err(NoConfiguration(slug)), ons, oecd)
    case Some(c) => SeedOutcome(ons, oecd, c, periods, force, today, draw)
  }

  method SeedSeriesBySlug(tables: ObservationTables, configs: seq<SourceConfig>, slug: string, periods: nat,
                          force: bool, today: YearMonth, draw: nat -> real) returns (r: Result<nat>)
    requires tables.Valid() && Valid(today)
    modifies tables
    ensures tables.Valid()
    ensures Seeded(r, tables.ons, tables.oecd) ==
      SeedBySlugOutcome(old(tables.ons), old(tables.oecd), configs, slug, periods, force, today, draw)
  {
    var config := GetDataSourceConfig(configs, slug, None);
    if config.None? {
      return Err(NoConfiguration(slug));
    }
    r := SeedSeriesByConfig(tables, config.value, periods, force, today, draw);
  }
}
