/**
 * The development seeding script: two lookup rows upserted into `economic_data_sources`,
 * and a fake ONS and a fake OECD monthly series upserted into the observation tables,
 * one row per label of the months ending with the current one.
 */
module Seed {
  import opened Base
  import opened Sorting
  import opened Calendar
  import opened EconomicData

  // ---------------------------------------------------------------------------------
  // Month labels

  /**
   * `_generate_month_labels(count)`: walks back from `today` appending `"%Y-%m"` labels,
   * then reverses them. The walk raises once it would step before January of year 1.
   */
  method GenerateMonthLabels(count: nat, today: YearMonth) returns (r: Result<seq<string>>)
    requires Valid(today)
    ensures r.Err? <==> count > Ordinal(today)
    ensures r.Ok? ==> r.value == MonthLabels(today, count)
    ensures r.Ok? && count > 0 ==> r.value[count - 1] == MonthLabel(today)
  {
    var labels: seq<string> := [];
    var current := today;
    var i := 0;
    while i < count
      invariant 0 <= i <= count && i <= Ordinal(today)
      invariant Valid(current) && Ordinal(current) == Ordinal(today) - i
      invariant |labels| == i
      invariant forall k :: 0 <= k < i ==> labels[k] == MonthLabel(Back(today, k))
    {
      labels := labels + [MonthLabel(current)];
      OrdinalInjective(current, Back(today, i));
      var prev := Prev(current);
      if prev.Err? {
        return Err(prev.error);
      }
      current := prev.value;
      i := i + 1;
    }
    var out := Reverse(labels);
    var ms := MonthsEnding(today, count);
    forall k | 0 <= k < count ensures out[k] == MonthLabels(today, count)[k] {
      ReverseAt(labels, k);
      OrdinalInjective(ms[k], Back(today, count - 1 - k));
    }
    LabelsOfMonths(today, count);
    return Ok(out);
  }

  /** The `"%Y-%m"` labels of the `count` months ending with `today`, oldest first. */
  function MonthLabels(today: YearMonth, count: nat): (labels: seq<string>)
    requires Valid(today) && count <= Ordinal(today) + 1
    ensures |labels| == count
  {
    var ms := MonthsEnding(today, count);
    seq(count, k requires 0 <= k < count => MonthLabel(ms[k]))
  }

  /** The labels of the months ending with `today` end with today's, never repeat, and ascend. */
  lemma LabelsOfMonths(today: YearMonth, count: nat)
    requires Valid(today) && count <= Ordinal(today) + 1
    ensures var labels := MonthLabels(today, count);
      forall k :: 0 <= k < count ==> labels[k] == MonthLabel(MonthsEnding(today, count)[k])
    ensures var labels := MonthLabels(today, count); count > 0 ==> labels[count - 1] == MonthLabel(today)
    ensures var labels := MonthLabels(today, count);
      forall j, k :: 0 <= j < k < count ==> labels[j] != labels[k]
    ensures var labels := MonthLabels(today, count);
      count > 0 && MonthsEnding(today, count)[0].year >= 1000 ==>
      forall k :: 0 <= k < count - 1 ==> StrLt(labels[k], labels[k + 1])
  {
    var ms := MonthsEnding(today, count);
    var labels := MonthLabels(today, count);
    MonthsEndingSpec(today, count);
    forall j, k | 0 <= j < k < count ensures labels[j] != labels[k] {
      MonthLabelInjective(ms[j], ms[k]);
    }
    if count > 0 && ms[0].year >= 1000 {
      forall k | 0 <= k < count - 1 ensures StrLt(labels[k], labels[k + 1]) {
        assert Ordinal(ms[0]) <= Ordinal(ms[k]);
        MonthLabelOrder(ms[k], ms[k + 1]);
      }
    }
  }

  // ---------------------------------------------------------------------------------
  // Fake observation series

  const FakeOnsMetadata: Json := JObj([("source", JStr("FAKE_SEED")), ("dimension", JStr("months"))])
  const FakeOecdMetadata: Json := JObj([("source", JStr("FAKE_SEED"))])

  /** One row of `seed_fake_ons_data`. */
  function FakeOnsRow(period: string, value: real): OnsRow {
    OnsRow(JStr("fake_mm23"), JStr("FAKE_CPI"), JStr("Synthetic CPI Index"), JStr(period),
           JNum(value), JStr("Index 2015=100"), JStr("Index"), JStr("months"), FakeOnsMetadata)
  }

  /** One row of `seed_fake_oecd_data`. */
  function FakeOecdRow(period: string, value: real): OecdRow {
    OecdRow(JStr("FAKE_MEI"), JStr("GBR"), JStr("CLI"), JStr("STSA"), JStr("M"), JStr(period),
            JNum(value), JStr("Index 2015=100"), FakeOecdMetadata)
  }

  /** `zip(labels, values)` turned into rows, with `values[k]` the k-th drawn value. */
  function FakeOnsRows(labels: seq<string>, draw: nat -> real): (rows: seq<OnsRow>)
    ensures |rows| == |labels|
    ensures forall k :: 0 <= k < |rows| ==> OnsKeyOf(rows[k]) == OnsKey(JStr("FAKE_CPI"), JStr(labels[k]))
  {
    var rows := seq(|labels|, k requires 0 <= k < |labels| => FakeOnsRow(labels[k], draw(k)));
    assert forall k :: 0 <= k < |labels| ==> rows[k] == FakeOnsRow(labels[k], draw(k));
    rows
  }

  function FakeOecdRows(labels: seq<string>, draw: nat -> real): (rows: seq<OecdRow>)
    ensures |rows| == |labels|
    ensures forall k :: 0 <= k < |rows| ==>
      OecdKeyOf(rows[k]) == OecdKey(JStr("FAKE_MEI"), JStr("GBR"), JStr("CLI"), JStr("STSA"), JStr("M"), JStr(labels[k]))
  {
    var rows := seq(|labels|, k requires 0 <= k < |labels| => FakeOecdRow(labels[k], draw(k)));
    assert forall k :: 0 <= k < |labels| ==> rows[k] == FakeOecdRow(labels[k], draw(k));
    rows
  }

  /**
   * `ON CONFLICT (series_id, period_label) DO UPDATE` of the fake ONS seed: value, unit,
   * measure, metadata and title are replaced; dataset id and dimension stay as stored.
   */
  function FakeOnsConflict(existing: OnsRow, incoming: OnsRow): (r: OnsRow)
    ensures OnsKeyOf(r) == OnsKeyOf(existing)
    ensures r.datasetId == existing.datasetId && r.dimension == existing.dimension
    ensures r.value == incoming.value && r.unit == incoming.unit && r.measure == incoming.measure
    ensures r.metadata == incoming.metadata && r.title == incoming.title
  {
    existing.(value := incoming.value, unit := incoming.unit, measure := incoming.measure,
              metadata := incoming.metadata, title := incoming.title)
  }

  /** Distinct labels give rows with distinct conflict keys. */
  lemma FakeRowsDistinct(labels: seq<string>, draw: nat -> real)
    requires forall j, k :: 0 <= j < k < |labels| ==> labels[j] != labels[k]
    ensures DistinctKeys(FakeOnsRows(labels, draw), OnsKeyOf)
    ensures DistinctKeys(FakeOecdRows(labels, draw), OecdKeyOf)
  {
    var ons, oecd := FakeOnsRows(labels, draw), FakeOecdRows(labels, draw);
    forall i, j | 0 <= i < j < |ons| ensures OnsKeyOf(ons[i]) != OnsKeyOf(ons[j]) {
      assert OnsKeyOf(ons[i]).periodLabel == JStr(labels[i]);
    }
    forall i, j | 0 <= i < j < |oecd| ensures OecdKeyOf(oecd[i]) != OecdKeyOf(oecd[j]) {
      assert OecdKeyOf(oecd[i]).periodLabel == JStr(labels[i]);
    }
  }

  /**
   * `seed_fake_ons_data(records)`: upserts one `FAKE_CPI` row per month label and returns
   * the number of rows. A label already stored keeps its dataset id and dimension.
   */
  method SeedFakeOnsData(tables: ObservationTables, records: nat, today: YearMonth, draw: nat -> real)
    returns (r: Result<nat>)
    requires tables.Valid() && Valid(today)
    modifies tables
    ensures tables.Valid() && tables.oecd == old(tables.oecd)
    ensures r.Err? <==> records > Ordinal(today)
    ensures r.Err? ==> tables.ons == old(tables.ons)
    ensures r.Ok? ==> r.value == records
    ensures r.Ok? ==> var rows := FakeOnsRows(MonthLabels(today, records), draw);
      (forall i :: 0 <= i < |rows| ==>
        (OnsKeyOf(rows[i]) in tables.ons
         && tables.ons[OnsKeyOf(rows[i])] ==
           (if OnsKeyOf(rows[i]) in old(tables.ons) then FakeOnsConflict(old(tables.ons)[OnsKeyOf(rows[i])], rows[i]) else rows[i])))
      && (forall k :: k in old(tables.ons) && k !in RowKeys(rows, OnsKeyOf) ==> k in tables.ons && tables.ons[k] == old(tables.ons)[k])
      && tables.ons.Keys == old(tables.ons).Keys + RowKeys(rows, OnsKeyOf)
  {
    var labels := GenerateMonthLabels(records, today);
    if labels.Err? {
      return Err(labels.error);
    }
    var rows := FakeOnsRows(labels.value, draw);
    LabelsOfMonths(today, records);
    FakeRowsDistinct(labels.value, draw);
    UpsertSpec(tables.ons, rows, OnsKeyOf, FakeOnsConflict);
    UpsertKeyed(tables.ons, rows, OnsKeyOf, FakeOnsConflict);
    tables.ons := Upsert(tables.ons, rows, OnsKeyOf, FakeOnsConflict);
    return Ok(|rows|);
  }

  /**
   * `seed_fake_oecd_data(records)`: upserts one `FAKE_MEI/GBR/CLI/STSA/M` row per month
   * label and returns the number of rows; a stored label gets the new value, unit and metadata.
   */
  method SeedFakeOecdData(tables: ObservationTables, records: nat, today: YearMonth, draw: nat -> real)
    returns (r: Result<nat>)
    requires tables.Valid() && Valid(today)
    modifies tables
    ensures tables.Valid() && tables.ons == old(tables.ons)
    ensures r.Err? <==> records > Ordinal(today)
    ensures r.Err? ==> tables.oecd == old(tables.oecd)
    ensures r.Ok? ==> r.value == records
    ensures r.Ok? ==> var rows := FakeOecdRows(MonthLabels(today, records), draw);
      (forall i :: 0 <= i < |rows| ==> OecdKeyOf(rows[i]) in tables.oecd && tables.oecd[OecdKeyOf(rows[i])] == rows[i])
      && (forall k :: k in old(tables.oecd) && k !in RowKeys(rows, OecdKeyOf) ==> k in tables.oecd && tables.oecd[k] == old(tables.oecd)[k])
      && tables.oecd.Keys == old(tables.oecd).Keys + RowKeys(rows, OecdKeyOf)
  {
    var labels := GenerateMonthLabels(records, today);
    if labels.Err? {
      return Err(labels.error);
    }
    var rows := FakeOecdRows(labels.value, draw);
    LabelsOfMonths(today, records);
    FakeRowsDistinct(labels.value, draw);
    UpsertSpec(tables.oecd, rows, OecdKeyOf, OecdStoreConflict);
    UpsertReplaces(tables.oecd, rows, OecdKeyOf, OecdStoreConflict);
    tables.oecd := Upsert(tables.oecd, rows, OecdKeyOf, OecdStoreConflict);
    return Ok(|rows|);
  }

  // ---------------------------------------------------------------------------------
  // Lookup rows

  const FakeOnsCpi: SourceConfig := SourceConfig(
    "fake_ons_cpi", "ONS", Some("fake_mm23"), None, Some("FAKE_CPI"), None, None,
    Some("Index"), Some("M"), Some("Index 2015=100"), Some("latest"),
    Some("Synthetic CPI index for development testing"),
    JObj([("resource_path", JStr("/economy/inflationandpriceindices/timeseries/chaw/mm23")), ("source", JStr("FAKE"))]),
    true, None)

  const FakeOecdCli: SourceConfig := SourceConfig(
    "fake_oecd_cli", "OECD", None, Some("FAKE_MEI"), None, Some("GBR"), Some("CLI"),
    Some("STSA"), Some("M"), Some("Index 2015=100"), Some("2018-2024"),
    Some("Synthetic OECD-style composite indicator"),
    JObj([("source", JStr("FAKE"))]),
    true, None)

  /** `LOOKUP_ROWS`. */
  const LookupRows: seq<SourceConfig> := [FakeOnsCpi, FakeOecdCli]

  /** The row `seed_lookup_table` writes for one entry: metadata `or {}`, enabled, stamped `now`. */
  function LookupRow(entry: SourceConfig, now: string): (c: SourceConfig)
    ensures c.slug == entry.slug && c.enabled && c.updatedAt == Some(now)
    ensures c.metadata == PrepareJson(entry.metadata)
    ensures c.(metadata := entry.metadata, enabled := entry.enabled, updatedAt := entry.updatedAt) == entry
  {
    entry.(metadata := PrepareJson(entry.metadata), enabled := true, updatedAt := Some(now))
  }

  /**
   * `INSERT ... ON CONFLICT (slug) DO UPDATE` of one row: every column is taken from the new
   * row, `enabled = TRUE` and `updated_at = CURRENT_TIMESTAMP`; a new slug is appended.
   */
  function UpsertConfig(table: seq<SourceConfig>, row: SourceConfig): (r: seq<SourceConfig>)
  {
    var i := FirstIndex(table, (c: SourceConfig) => c.slug == row.slug);
    if i < |table| then table[i := row] else table + [row]
  }

  /** The upsert by slug is keyed by slug: it leaves exactly one row with that slug, the new one. */
  lemma UpsertConfigSpec(table: seq<SourceConfig>, row: SourceConfig)
    requires UniqueSlugs(table)
    ensures var r := UpsertConfig(table, row);
      UniqueSlugs(r)
      && row in r
      && (forall c :: c in r && c.slug == row.slug ==> c == row)
      && (forall c :: c in table && c.slug != row.slug ==> c in r)
      && (forall c :: c in r && c != row ==> c in table)
  {
    var i := FirstIndex(table, (c: SourceConfig) => c.slug == row.slug);
    var r := UpsertConfig(table, row);
    if i < |table| {
      assert r[i] == row;
      forall j | 0 <= j < |table| && j != i ensures table[j].slug != row.slug {
        assert table[j].slug != table[i].slug;
      }
      forall c | c in table && c.slug != row.slug ensures c in r {
        var j :| 0 <= j < |table| && table[j] == c;
        assert r[j] == c;
      }
    } else {
      assert r[|table|] == row;
      assert forall j :: 0 <= j < |table| ==> r[j] == table[j];
    }
  }

  /** `seed_lookup_table()`: the rows of `LOOKUP_ROWS` upserted in order at time `now`. */
  function SeedLookupTable(table: seq<SourceConfig>, now: string): seq<SourceConfig> {
    UpsertConfig(UpsertConfig(table, LookupRow(FakeOnsCpi, now)), LookupRow(FakeOecdCli, now))
  }

  /**
   * After seeding, both lookup slugs resolve (for any provider filter matching their own)
   * to the seeded, enabled rows; every row with another slug is kept, and slugs stay unique.
   */
  lemma SeedLookupTableSpec(table: seq<SourceConfig>, now: string)
    requires UniqueSlugs(table)
    ensures var r := SeedLookupTable(table, now);
      UniqueSlugs(r)
      && GetDataSourceConfig(r, "fake_ons_cpi", None) == Some(LookupRow(FakeOnsCpi, now))
      && GetDataSourceConfig(r, "fake_ons_cpi", Some("ons")) == Some(LookupRow(FakeOnsCpi, now))
      && GetDataSourceConfig(r, "fake_oecd_cli", None) == Some(LookupRow(FakeOecdCli, now))
      && GetDataSourceConfig(r, "fake_oecd_cli", Some("oecd")) == Some(LookupRow(FakeOecdCli, now))
      && (forall c :: c in table && c.slug != "fake_ons_cpi" && c.slug != "fake_oecd_cli" ==> c in r)
  {
    var ons, oecd := LookupRow(FakeOnsCpi, now), LookupRow(FakeOecdCli, now);
    SeedLookupRows(table, now);
    var r := SeedLookupTable(table, now);
    assert Upper("ons") == "ONS" && Upper("oecd") == "OECD";
    Resolves(r, ons, None);
    Resolves(r, ons, Some("ons"));
    Resolves(r, oecd, None);
    Resolves(r, oecd, Some("oecd"));
  }

  lemma SeedLookupRows(table: seq<SourceConfig>, now: string)
    requires UniqueSlugs(table)
    ensures var r := SeedLookupTable(table, now);
      UniqueSlugs(r) && LookupRow(FakeOnsCpi, now) in r && LookupRow(FakeOecdCli, now) in r
      && (forall c :: c in table && c.slug != "fake_ons_cpi" && c.slug != "fake_oecd_cli" ==> c in r)
  {
    var ons, oecd := LookupRow(FakeOnsCpi, now), LookupRow(FakeOecdCli, now);
    var mid := UpsertConfig(table, ons);
    UpsertConfigSpec(table, ons);
    UpsertConfigSpec(mid, oecd);
    assert ons in mid && ons.slug != oecd.slug;
  }

  /** With unique slugs, a stored enabled row is what a lookup of its slug returns. */
  lemma Resolves(table: seq<SourceConfig>, row: SourceConfig, provider: Option<string>)
    requires UniqueSlugs(table) && row in table && ConfigMatches(row, row.slug, provider)
    ensures GetDataSourceConfig(table, row.slug, provider) == Some(row)
  {
    var i :| 0 <= i < |table| && table[i] == row;
    GetDataSourceConfigUnique(table, row.slug, provider, i);
  }
}
