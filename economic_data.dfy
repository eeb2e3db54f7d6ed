/**
 * The shared tables of the series store: the `economic_data_sources` configuration rows,
 * and the ONS and OECD observation tables written by keyed upsert
 * (`INSERT ... ON CONFLICT (...) DO UPDATE`).
 */
module EconomicData {
  import opened Base
  import opened Sorting

  /** One row of `economic_data_sources`. */
  datatype SourceConfig = SourceConfig(
    slug: string,
    provider: string,
    datasetId: Option<string>,
    datasetCode: Option<string>,
    seriesId: Option<string>,
    location: Option<string>,
    subject: Option<string>,
    measure: Option<string>,
    frequency: Option<string>,
    unit: Option<string>,
    timeFilter: Option<string>,
    description: Option<string>,
    metadata: Json,
    enabled: bool,
    updatedAt: Option<string>)

  function Slug(c: SourceConfig): string { c.slug }

  /**
   * `metadata->>'key'` for a string member. A member that is not a string is read as NULL,
   * where PostgreSQL gives its JSON text.
   */
  function MetaText(metadata: Json, key: string): (r: Option<string>)
    ensures r.Some? ==> Get(metadata, key) == JStr(r.value)
  {
    match Get(metadata, key)
    case JStr(s) => Some(s)
    case _ => None
  }

  // ---------------------------------------------------------------------------------
  // Configuration lookups

  predicate ConfigMatches(c: SourceConfig, slug: string, provider: Option<string>) {
    c.slug == slug && c.enabled && (Present(provider) ==> c.provider == Upper(provider.value))
  }

  /** `get_data_source_config(slug, provider)`: the first enabled row with that slug. */
  function GetDataSourceConfig(table: seq<SourceConfig>, slug: string, provider: Option<string>): (r: Option<SourceConfig>)
    ensures r.Some? ==> r.value in table && ConfigMatches(r.value, slug, provider)
    ensures r.None? <==> forall c :: c in table ==> !ConfigMatches(c, slug, provider)
  {
    First(table, c => ConfigMatches(c, slug, provider))
  }

  /** Slugs are the table's conflict key (the seeding upsert relies on it). */
  predicate UniqueSlugs(table: seq<SourceConfig>) {
    forall i, j :: 0 <= i < j < |table| ==> table[i].slug != table[j].slug
  }

  /** With unique slugs the lookup is determined: it is the one matching row. */
  lemma GetDataSourceConfigUnique(table: seq<SourceConfig>, slug: string, provider: Option<string>, i: nat)
    requires UniqueSlugs(table)
    requires i < |table| && ConfigMatches(table[i], slug, provider)
    ensures GetDataSourceConfig(table, slug, provider) == Some(table[i])
  {
    var k := FirstIndex(table, c => ConfigMatches(c, slug, provider));
    assert k <= i;
    assert table[k].slug == slug == table[i].slug;
  }

  predicate ListedConfig(c: SourceConfig, provider: Option<string>) {
    c.enabled && (Present(provider) ==> c.provider == Upper(provider.value))
  }

  /** `list_data_source_configs(provider)`: enabled rows, optionally of one provider, by slug. */
  function ListDataSourceConfigs(table: seq<SourceConfig>, provider: Option<string>): (r: seq<SourceConfig>)
    ensures SortedBy(r, Slug)
    ensures forall c :: c in r <==> c in table && ListedConfig(c, provider)
    ensures multiset(r) == multiset(Filter(table, c => ListedConfig(c, provider)))
  {
    var kept := Filter(table, c => ListedConfig(c, provider));
    var r := SortBy(kept, Slug);
    assert forall c :: c in r <==> c in kept by {
      forall c ensures c in r <==> c in kept {
        assert c in r <==> c in multiset(r);
        assert c in kept <==> c in multiset(kept);
      }
    }
    r
  }

  // ---------------------------------------------------------------------------------
  // Observation rows

  /** `Json(value or {})`: a missing or empty metadata value is stored as `{}`. */
  function PrepareJson(value: Json): (r: Json)
    ensures Truthy(value) ==> r == value
    ensures !Truthy(value) ==> r == JObj([])
  {
    if Truthy(value) then value else JObj([])
  }

  datatype OnsKey = OnsKey(seriesId: Json, periodLabel: Json)

  datatype OnsRow = OnsRow(
    datasetId: Json, seriesId: Json, title: Json, periodLabel: Json,
    value: Json, unit: Json, measure: Json, dimension: Json, metadata: Json)

  datatype OecdKey = OecdKey(
    datasetCode: Json, location: Json, subject: Json, measure: Json, frequency: Json, periodLabel: Json)

  datatype OecdRow = OecdRow(
    datasetCode: Json, location: Json, subject: Json, measure: Json, frequency: Json,
    periodLabel: Json, value: Json, unit: Json, metadata: Json)

  function OnsKeyOf(r: OnsRow): OnsKey { OnsKey(r.seriesId, r.periodLabel) }

  function OecdKeyOf(r: OecdRow): OecdKey {
    OecdKey(r.datasetCode, r.location, r.subject, r.measure, r.frequency, r.periodLabel)
  }

  /** `record[k]` for each required key in tuple order; Python reports the missing key as `'k'`. */
  function FirstMissing(record: Json, required: seq<string>): (r: Option<string>)
    ensures r.None? <==> forall k :: k in required ==> Has(record, k)
    ensures r.Some? ==> r.value in required && !Has(record, r.value)
  {
    if required == [] then None
    else if !Has(record, required[0]) then Some(required[0])
    else FirstMissing(record, required[1..])
  }

  function KeyError(key: string): string { "'" + key + "'" }

  const OnsRequired: seq<string> := ["dataset_id", "series_id", "period_label"]
  const OecdRequired: seq<string> := ["dataset_code", "location", "period_label"]

  /** The tuple that `store_ons_timeseries` builds from one record. */
  function OnsRowOf(record: Json): (r: Result<OnsRow>)
    ensures r.Ok? <==> Has(record, "dataset_id") && Has(record, "series_id") && Has(record, "period_label")
    ensures r.Ok? ==> r.value.seriesId == Get(record, "series_id") && r.value.periodLabel == Get(record, "period_label")
    ensures r.Ok? ==> r.value.datasetId == Get(record, "dataset_id") && r.value.value == Get(record, "value")
    ensures r.Ok? ==> r.value.title == Get(record, "title") && r.value.unit == Get(record, "unit")
    ensures r.Ok? ==> r.value.measure == Get(record, "measure") && r.value.dimension == Get(record, "dimension")
    ensures r.Ok? ==> r.value.metadata == PrepareJson(Get(record, "metadata"))
  {
    match FirstMissing(record, OnsRequired)
    case Some(k) => Err(KeyError(k))
    case None =>
      assert "dataset_id" in OnsRequired && "series_id" in OnsRequired && "period_label" in OnsRequired;
      Ok(OnsRow(
        Get(record, "dataset_id"), Get(record, "series_id"), Get(record, "title"),
        Get(record, "period_label"), Get(record, "value"), Get(record, "unit"),
        Get(record, "measure"), Get(record, "dimension"), PrepareJson(Get(record, "metadata"))))
  }

  /** The tuple that `store_oecd_timeseries` builds from one record. */
  function OecdRowOf(record: Json): (r: Result<OecdRow>)
    ensures r.Ok? <==> Has(record, "dataset_code") && Has(record, "location") && Has(record, "period_label")
    ensures r.Ok? ==> r.value.datasetCode == Get(record, "dataset_code") && r.value.location == Get(record, "location")
    ensures r.Ok? ==> r.value.subject == Get(record, "subject") && r.value.periodLabel == Get(record, "period_label")
    ensures r.Ok? ==> r.value.measure == Get(record, "measure") && r.value.frequency == Get(record, "frequency")
    ensures r.Ok? ==> r.value.value == Get(record, "value") && r.value.unit == Get(record, "unit")
    ensures r.Ok? ==> r.value.metadata == PrepareJson(Get(record, "metadata"))
  {
    match FirstMissing(record, OecdRequired)
    case Some(k) => Err(KeyError(k))
    case None =>
      assert "dataset_code" in OecdRequired && "location" in OecdRequired && "period_label" in OecdRequired;
      Ok(OecdRow(
        Get(record, "dataset_code"), Get(record, "location"), Get(record, "subject"),
        Get(record, "measure"), Get(record, "frequency"), Get(record, "period_label"),
        Get(record, "value"), Get(record, "unit"), PrepareJson(Get(record, "metadata"))))
  }

  /** The list comprehension over all records: it raises at the first bad record. */
  function OnsRows(records: seq<Json>): (r: Result<seq<OnsRow>>)
    ensures r.Ok? <==> forall i :: 0 <= i < |records| ==> OnsRowOf(records[i]).Ok?
    ensures r.Ok? ==> |r.value| == |records| && forall i :: 0 <= i < |records| ==> r.value[i] == OnsRowOf(records[i]).value
  {
    MapResult(records, OnsRowOf)
  }

  function OecdRows(records: seq<Json>): (r: Result<seq<OecdRow>>)
    ensures r.Ok? <==> forall i :: 0 <= i < |records| ==> OecdRowOf(records[i]).Ok?
    ensures r.Ok? ==> |r.value| == |records| && forall i :: 0 <= i < |records| ==> r.value[i] == OecdRowOf(records[i]).value
  {
    MapResult(records, OecdRowOf)
  }

  // ---------------------------------------------------------------------------------
  // Keyed upsert

  predicate DistinctKeys<K(==), R>(rows: seq<R>, key: R -> K) {
    forall i, j :: 0 <= i < j < |rows| ==> key(rows[i]) != key(rows[j])
  }

  /** `execute_values` sends a batch in pages of this many rows, its default `page_size`. */
  const PageSize: nat := 100

  /**
   * No page of the batch hits one conflict key twice. PostgreSQL rejects a page that does,
   * while a key repeated on a later page simply updates the row again.
   */
  predicate PagesDistinct<K(==), R>(rows: seq<R>, key: R -> K) {
    forall i, j :: 0 <= i < j < |rows| && i / PageSize == j / PageSize ==> key(rows[i]) != key(rows[j])
  }

  const CardinalityError: string := "ON CONFLICT DO UPDATE command cannot affect row a second time"

  /** The conflict keys of a batch of rows. */
  function RowKeys<K(==), R>(rows: seq<R>, key: R -> K): (ks: set<K>)
    ensures forall i :: 0 <= i < |rows| ==> key(rows[i]) in ks
    ensures forall k :: k in ks ==> exists i :: 0 <= i < |rows| && key(rows[i]) == k
  {
    if rows == [] then {}
    else
      var ks := RowKeys(rows[..|rows| - 1], key);
      assert forall i :: 0 <= i < |rows| - 1 ==> rows[..|rows| - 1][i] == rows[i];
      ks + {key(rows[|rows| - 1])}
  }

  /**
   * `INSERT ... VALUES rows ON CONFLICT (key) DO UPDATE`: a row whose key is new is
   * inserted, a row whose key exists is combined with the stored row by `merge`.
   */
  function Upsert<K(==), R>(table: map<K, R>, rows: seq<R>, key: R -> K, merge: (R, R) -> R): map<K, R>
  {
    if rows == [] then table
    else
      var t := Upsert(table, rows[..|rows| - 1], key, merge);
      var x := rows[|rows| - 1];
      t[key(x) := if key(x) in t then merge(t[key(x)], x) else x]
  }

  /**
   * With pairwise distinct keys, the upsert adds exactly the batch's keys, stores each row merged with the row it
   * displaces, and leaves every other stored row as it was.
   */
  lemma {:induction false} UpsertSpec<K, R>(table: map<K, R>, rows: seq<R>, key: R -> K, merge: (R, R) -> R)
    requires DistinctKeys(rows, key)
    ensures Upsert(table, rows, key, merge).Keys == table.Keys + RowKeys(rows, key)
    ensures forall i :: 0 <= i < |rows| ==>
      Upsert(table, rows, key, merge)[key(rows[i])] ==
        (if key(rows[i]) in table then merge(table[key(rows[i])], rows[i]) else rows[i])
    ensures forall k :: k in table && k !in RowKeys(rows, key) ==> Upsert(table, rows, key, merge)[k] == table[k]
  {
    if rows != [] {
      var init := rows[..|rows| - 1];
      var x := rows[|rows| - 1];
      assert forall i :: 0 <= i < |init| ==> init[i] == rows[i];
      assert DistinctKeys(init, key);
      UpsertSpec(table, init, key, merge);
      assert key(x) !in RowKeys(init, key);
      assert RowKeys(rows, key) == RowKeys(init, key) + {key(x)};
      var t0 := Upsert(table, init, key, merge);
      var t := Upsert(table, rows, key, merge);
      assert t == t0[key(x) := if key(x) in table then merge(table[key(x)], x) else x];
      forall i | 0 <= i < |init|
        ensures t[key(rows[i])] == (if key(rows[i]) in table then merge(table[key(rows[i])], rows[i]) else rows[i])
      {
        assert rows[i] == init[i];
      }
    }
  }

  /** `ON CONFLICT (series_id, period_label)` of `store_ons_timeseries`: every other column is replaced. */
  function OnsStoreConflict(existing: OnsRow, incoming: OnsRow): (r: OnsRow)
    ensures OnsKeyOf(r) == OnsKeyOf(existing)
    ensures OnsKeyOf(existing) == OnsKeyOf(incoming) ==> r == incoming
  {
    existing.(datasetId := incoming.datasetId, title := incoming.title, value := incoming.value,
              unit := incoming.unit, measure := incoming.measure, dimension := incoming.dimension,
              metadata := incoming.metadata)
  }

  /** `ON CONFLICT (dataset_code, ..., period_label)` of `store_oecd_timeseries`: value, unit and metadata. */
  function OecdStoreConflict(existing: OecdRow, incoming: OecdRow): (r: OecdRow)
    ensures OecdKeyOf(r) == OecdKeyOf(existing)
    ensures OecdKeyOf(existing) == OecdKeyOf(incoming) ==> r == incoming
  {
    existing.(value := incoming.value, unit := incoming.unit, metadata := incoming.metadata)
  }

  /** Every stored row sits under its own conflict key. */
  predicate KeyedBy<K(==), R>(table: map<K, R>, key: R -> K) {
    forall k :: k in table ==> key(table[k]) == k
  }

  /** An upsert whose merge keeps the stored row's key keeps the table keyed, whatever the batch. */
  lemma {:induction false} UpsertKeyed<K, R>(table: map<K, R>, rows: seq<R>, key: R -> K, merge: (R, R) -> R)
    requires KeyedBy(table, key)
    requires forall e, n :: key(merge(e, n)) == key(e)
    ensures KeyedBy(Upsert(table, rows, key, merge), key)
  {
    if rows != [] {
      var x := rows[|rows| - 1];
      var t0 := Upsert(table, rows[..|rows| - 1], key, merge);
      UpsertKeyed(table, rows[..|rows| - 1], key, merge);
      var v := if key(x) in t0 then merge(t0[key(x)], x) else x;
      if key(x) in t0 {
        var e := t0[key(x)];
        assert key(e) == key(x);
        MergeKeeps(key, merge, e, x);
      }
      assert Upsert(table, rows, key, merge) == t0[key(x) := v];
    }
  }

  lemma MergeKeeps<K, R>(key: R -> K, merge: (R, R) -> R, e: R, n: R)
    requires forall e, n :: key(merge(e, n)) == key(e)
    ensures key(merge(e, n)) == key(e)
  {
  }

  lemma MergeReplaces<K, R>(key: R -> K, merge: (R, R) -> R, e: R, n: R)
    requires forall e, n :: key(e) == key(n) ==> merge(e, n) == n
    requires key(e) == key(n)
    ensures merge(e, n) == n
  {
  }

  /** Whatever the batch, the upsert adds exactly its keys and keeps every row whose key it does not hit. */
  lemma {:induction false} UpsertKeys<K, R>(table: map<K, R>, rows: seq<R>, key: R -> K, merge: (R, R) -> R)
    ensures Upsert(table, rows, key, merge).Keys == table.Keys + RowKeys(rows, key)
    ensures forall k :: k in table && k !in RowKeys(rows, key) ==> Upsert(table, rows, key, merge)[k] == table[k]
  {
    if rows != [] {
      var init := rows[..|rows| - 1];
      UpsertKeys(table, init, key, merge);
      assert RowKeys(rows, key) == RowKeys(init, key) + {key(rows[|rows| - 1])};
    }
  }

  /**
   * Rows applied one after the other, as the pages of a batch are: when the merge yields
   * the incoming row for an equal key, a row that no later row of the batch shares its key
   * with is the one stored under that key.
   */
  lemma {:induction false} UpsertLastWins<K, R>(table: map<K, R>, rows: seq<R>, key: R -> K, merge: (R, R) -> R, i: nat)
    requires KeyedBy(table, key)
    requires forall e, n :: key(merge(e, n)) == key(e)
    requires forall e, n :: key(e) == key(n) ==> merge(e, n) == n
    requires i < |rows| && forall j :: i < j < |rows| ==> key(rows[j]) != key(rows[i])
    ensures key(rows[i]) in Upsert(table, rows, key, merge)
    ensures Upsert(table, rows, key, merge)[key(rows[i])] == rows[i]
  {
    var init := rows[..|rows| - 1];
    var x := rows[|rows| - 1];
    var t0 := Upsert(table, init, key, merge);
    assert Upsert(table, rows, key, merge) == t0[key(x) := if key(x) in t0 then merge(t0[key(x)], x) else x];
    if i == |rows| - 1 {
      UpsertKeyed(table, init, key, merge);
      if key(x) in t0 {
        var e := t0[key(x)];
        assert key(e) == key(x);
        MergeReplaces(key, merge, e, x);
      }
    } else {
      assert init[i] == rows[i];
      forall j | i < j < |init| ensures key(init[j]) != key(init[i]) {
        assert init[j] == rows[j];
      }
      UpsertLastWins(table, init, key, merge, i);
      assert key(x) != key(rows[i]);
    }
  }

  /**
   * An upsert whose merge keeps the stored row's key keeps the table keyed, and when the
   * merge also yields the incoming row for an equal key, every row of the batch ends up
   * stored exactly as given.
   */
  lemma UpsertReplaces<K, R>(table: map<K, R>, rows: seq<R>, key: R -> K, merge: (R, R) -> R)
    requires DistinctKeys(rows, key) && KeyedBy(table, key)
    requires forall e, n :: key(merge(e, n)) == key(e)
    requires forall e, n :: key(e) == key(n) ==> merge(e, n) == n
    ensures KeyedBy(Upsert(table, rows, key, merge), key)
    ensures forall i :: 0 <= i < |rows| ==>
      key(rows[i]) in Upsert(table, rows, key, merge) && Upsert(table, rows, key, merge)[key(rows[i])] == rows[i]
    ensures Upsert(table, rows, key, merge).Keys == table.Keys + RowKeys(rows, key)
  {
    UpsertSpec(table, rows, key, merge);
    var t := Upsert(table, rows, key, merge);
    forall i | 0 <= i < |rows| ensures t[key(rows[i])] == rows[i] {
      if key(rows[i]) in table {
        assert key(table[key(rows[i])]) == key(rows[i]);
      }
    }
    forall k | k in t ensures key(t[k]) == k {
      if k in RowKeys(rows, key) {
        var i :| 0 <= i < |rows| && key(rows[i]) == k;
      }
    }
  }

  /** The record batch has no two records with the same conflict key. */
  predicate DistinctOnsRecords(records: seq<Json>) {
    forall i, j :: 0 <= i < j < |records| ==>
      OnsKey(Get(records[i], "series_id"), Get(records[i], "period_label")) != OnsKey(Get(records[j], "series_id"), Get(records[j], "period_label"))
  }

  function OecdRecordKey(rec: Json): OecdKey {
    OecdKey(Get(rec, "dataset_code"), Get(rec, "location"), Get(rec, "subject"),
            Get(rec, "measure"), Get(rec, "frequency"), Get(rec, "period_label"))
  }

  predicate DistinctOecdRecords(records: seq<Json>) {
    forall i, j :: 0 <= i < j < |records| ==> OecdRecordKey(records[i]) != OecdRecordKey(records[j])
  }

  /** Records with distinct conflict keys give rows with distinct conflict keys. */
  lemma OnsRowsDistinct(records: seq<Json>)
    requires DistinctOnsRecords(records) && OnsRows(records).Ok?
    ensures DistinctKeys(OnsRows(records).value, OnsKeyOf)
  {
    var rows := OnsRows(records).value;
    forall i, j | 0 <= i < j < |rows| ensures OnsKeyOf(rows[i]) != OnsKeyOf(rows[j]) {
      assert rows[i] == OnsRowOf(records[i]).value;
      assert rows[j] == OnsRowOf(records[j]).value;
    }
  }

  lemma OecdRowsDistinct(records: seq<Json>)
    requires DistinctOecdRecords(records) && OecdRows(records).Ok?
    ensures DistinctKeys(OecdRows(records).value, OecdKeyOf)
  {
    var rows := OecdRows(records).value;
    forall i, j | 0 <= i < j < |rows| ensures OecdKeyOf(rows[i]) != OecdKeyOf(rows[j]) {
      assert rows[i] == OecdRowOf(records[i]).value;
      assert rows[j] == OecdRowOf(records[j]).value;
    }
  }

  /**
   * Storing a batch with distinct keys leaves the table keyed, adds exactly the batch's
   * keys, and leaves every record's row stored exactly as built from the record.
   */
  lemma OnsStoredAsGiven(table: map<OnsKey, OnsRow>, records: seq<Json>)
    requires KeyedBy(table, OnsKeyOf) && DistinctOnsRecords(records) && OnsRows(records).Ok?
    ensures var t := Upsert(table, OnsRows(records).value, OnsKeyOf, OnsStoreConflict);
      KeyedBy(t, OnsKeyOf)
      && t.Keys == table.Keys + RowKeys(OnsRows(records).value, OnsKeyOf)
      && forall i :: 0 <= i < |records| ==>
        OnsKeyOf(OnsRowOf(records[i]).value) in t && t[OnsKeyOf(OnsRowOf(records[i]).value)] == OnsRowOf(records[i]).value
  {
    OnsRowsDistinct(records);
    UpsertReplaces(table, OnsRows(records).value, OnsKeyOf, OnsStoreConflict);
  }

  lemma OecdStoredAsGiven(table: map<OecdKey, OecdRow>, records: seq<Json>)
    requires KeyedBy(table, OecdKeyOf) && DistinctOecdRecords(records) && OecdRows(records).Ok?
    ensures var t := Upsert(table, OecdRows(records).value, OecdKeyOf, OecdStoreConflict);
      KeyedBy(t, OecdKeyOf)
      && t.Keys == table.Keys + RowKeys(OecdRows(records).value, OecdKeyOf)
      && forall i :: 0 <= i < |records| ==>
        OecdKeyOf(OecdRowOf(records[i]).value) in t && t[OecdKeyOf(OecdRowOf(records[i]).value)] == OecdRowOf(records[i]).value
  {
    OecdRowsDistinct(records);
    UpsertReplaces(table, OecdRows(records).value, OecdKeyOf, OecdStoreConflict);
  }

  /** The two observation tables, keyed by their `ON CONFLICT` columns. */
  class ObservationTables {
    var ons: map<OnsKey, OnsRow>
    var oecd: map<OecdKey, OecdRow>

    /** The unique constraints: each row is stored under its conflict key. */
    predicate Valid()
      reads this
    {
      KeyedBy(ons, OnsKeyOf) && KeyedBy(oecd, OecdKeyOf)
    }

    constructor()
      ensures Valid()
      ensures ons == map[] && oecd == map[]
    {
      ons := map[];
      oecd := map[];
    }

    /**
     * `store_ons_timeseries(records)`: raises before writing anything when a record lacks a
     * required key; writes nothing and returns 0 for an empty batch; raises, and the
     * transaction rolls back, when one page of the batch hits a conflict key twice;
     * otherwise upserts every record, a later row of a key winning (see `UpsertLastWins`
     * and `OnsStoredAsGiven`), and returns the number of records.
     */
    method StoreOns(records: seq<Json>) returns (r: Result<nat>)
      requires Valid()
      modifies this
      ensures Valid()
      ensures oecd == old(oecd)
      ensures r.Err? <==> OnsRows(records).Err? || !PagesDistinct(OnsRows(records).value, OnsKeyOf)
      ensures OnsRows(records).Ok? && !PagesDistinct(OnsRows(records).value, OnsKeyOf) ==> r == Err(CardinalityError)
      ensures r.Err? ==> ons == old(ons)
      ensures records == [] ==> r == Ok(0) && ons == old(ons)
      ensures r.Ok? ==> r.value == |records|
      ensures r.Ok? ==> ons == Upsert(old(ons), OnsRows(records).value, OnsKeyOf, OnsStoreConflict)
    {
      var rows := OnsRows(records);
      if rows.Err? {
        return Err(rows.error);
      }
      if |rows.value| == 0 {
        return Ok(0);
      }
      if !PagesDistinct(rows.value, OnsKeyOf) {
        return Err(CardinalityError);
      }
      UpsertKeyed(ons, rows.value, OnsKeyOf, OnsStoreConflict);
      ons := Upsert(ons, rows.value, OnsKeyOf, OnsStoreConflict);
      r := Ok(|rows.value|);
    }

    /** `store_oecd_timeseries(records)`, with the OECD required keys and conflict key. */
    method StoreOecd(records: seq<Json>) returns (r: Result<nat>)
      requires Valid()
      modifies this
      ensures Valid()
      ensures ons == old(ons)
      ensures r.Err? <==> OecdRows(records).Err? || !PagesDistinct(OecdRows(records).value, OecdKeyOf)
      ensures OecdRows(records).Ok? && !PagesDistinct(OecdRows(records).value, OecdKeyOf) ==> r == Err(CardinalityError)
      ensures r.Err? ==> oecd == old(oecd)
      ensures records == [] ==> r == Ok(0) && oecd == old(oecd)
      ensures r.Ok? ==> r.value == |records|
      ensures r.Ok? ==> oecd == Upsert(old(oecd), OecdRows(records).value, OecdKeyOf, OecdStoreConflict)
    {
      var rows := OecdRows(records);
      if rows.Err? {
        return Err(rows.error);
      }
      if |rows.value| == 0 {
        return Ok(0);
      }
      if !PagesDistinct(rows.value, OecdKeyOf) {
        return Err(CardinalityError);
      }
      UpsertKeyed(oecd, rows.value, OecdKeyOf, OecdStoreConflict);
      oecd := Upsert(oecd, rows.value, OecdKeyOf, OecdStoreConflict);
      r := Ok(|rows.value|);
    }
  }
}
