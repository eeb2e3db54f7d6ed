/**
 * The ONS fetcher: flattening an ONS time-series payload (its `months`, `quarters` and
 * `years` groups) into observation records for the ONS table, the request it is fetched
 * with, and the resolution of the command's parameters against a configuration row.
 */
module OnsFetcher {
  import opened Base
  import opened EconomicData

  // ---------------------------------------------------------------------------------
  // The request

  /** An HTTP GET: the URL and the query parameters in order. */
  datatype HttpRequest = HttpRequest(url: string, params: seq<(string, string)>)

  /**
   * `fetch_timeseries(series_id, dataset_id, time_filter)` up to the network call: the
   * URL template filled in, and a `time` parameter only for a non-empty filter.
   */
  function TimeseriesRequest(seriesId: string, datasetId: string, timeFilter: Option<string>): (r: HttpRequest)
    ensures r.url == "https://api.ons.gov.uk/timeseries/" + seriesId + "/dataset/" + datasetId + "/data"
    ensures Present(timeFilter) <==> r.params != []
    ensures Present(timeFilter) ==> r.params == [("time", timeFilter.value)]
  {
    HttpRequest("https://api.ons.gov.uk/timeseries/" + seriesId + "/dataset/" + datasetId + "/data",
                if Present(timeFilter) then [("time", timeFilter.value)] else [])
  }

  // ---------------------------------------------------------------------------------
  // Records

  /** The period groups of a payload, in the order they are flattened. */
  const Groups: seq<string> := ["months", "quarters", "years"]

  /** What every record of one payload shares: the description and the two labels. */
  datatype Labels = Labels(description: Json, dataset: Json, series: Json, parseFloat: string -> Option<real>)

  /**
   * `description = payload.get("description", {})`; the dataset and series labels are the
   * description's `datasetId` and `seriesId`, else the arguments.
   */
  function LabelsOf(payload: Json, datasetId: string, seriesId: string, parseFloat: string -> Option<real>): (l: Labels)
    ensures Truthy(Get(l.description, "datasetId")) ==> l.dataset == Get(l.description, "datasetId")
    ensures !Truthy(Get(l.description, "datasetId")) ==> l.dataset == JStr(datasetId)
    ensures Truthy(Get(l.description, "seriesId")) ==> l.series == Get(l.description, "seriesId")
    ensures !Truthy(Get(l.description, "seriesId")) ==> l.series == JStr(seriesId)
    ensures !Has(payload, "description") ==> l.description == JObj([])
  {
    var description := GetOr(payload, "description", JObj([]));
    Labels(description, JOr(Get(description, "datasetId"), JStr(datasetId)),
           JOr(Get(description, "seriesId"), JStr(seriesId)), parseFloat)
  }

  /** `payload.get(group) or []` */
  function GroupEntries(payload: Json, group: string): seq<Json> {
    Items(JOr(Get(payload, group), JArr([])))
  }

  /** `entry.get("date") or entry.get("time") or entry.get("period")` */
  function PeriodOf(entry: Json): Json {
    JOr(Get(entry, "date"), JOr(Get(entry, "time"), Get(entry, "period")))
  }

  /** An entry that is not skipped: it has a truthy period. */
  predicate Dated(entry: Json) {
    Truthy(PeriodOf(entry))
  }

  /** The record dict built for one dated entry of the group `dimension`. */
  function EntryRecord(l: Labels, dimension: string, entry: Json): Json {
    JObj([
      ("dataset_id", l.dataset),
      ("series_id", l.series),
      ("title", Get(l.description, "title")),
      ("period_label", PeriodOf(entry)),
      ("value", ValueJson(FloatOf(Get(entry, "value"), l.parseFloat))),
      ("unit", Get(l.description, "unit")),
      ("measure", Get(l.description, "measureOfUnit")),
      ("dimension", JStr(dimension)),
      ("metadata", JObj([("source", JStr("ONS")), ("raw_entry", entry), ("series", l.description)]))])
  }

  lemma EntryRecordKeys(l: Labels, dimension: string, entry: Json)
    ensures UniqueKeys(EntryRecord(l, dimension, entry).fields)
  {
  }

  /**
   * A record carries the two labels, the entry's period, the normalised value and the
   * group it came from, and the description's title, unit and measure.
   */
  lemma EntryRecordFields(l: Labels, dimension: string, entry: Json)
    ensures var rec := EntryRecord(l, dimension, entry);
      Get(rec, "dataset_id") == l.dataset
      && Get(rec, "series_id") == l.series
      && Get(rec, "title") == Get(l.description, "title")
      && Get(rec, "period_label") == PeriodOf(entry)
      && Get(rec, "value") == ValueJson(FloatOf(Get(entry, "value"), l.parseFloat))
      && Get(rec, "unit") == Get(l.description, "unit")
      && Get(rec, "measure") == Get(l.description, "measureOfUnit")
      && Get(rec, "dimension") == JStr(dimension)
  {
    var f := EntryRecord(l, dimension, entry).fields;
    EntryRecordKeys(l, dimension, entry);
    GetUnique(f, 0);
    GetUnique(f, 1);
    GetUnique(f, 2);
    GetUnique(f, 3);
    GetUnique(f, 4);
    GetUnique(f, 5);
    GetUnique(f, 6);
    GetUnique(f, 7);
  }

  /** The period is the first truthy one of `date`, `time` and `period`. */
  lemma PeriodPrecedence(entry: Json)
    ensures Truthy(Get(entry, "date")) ==> PeriodOf(entry) == Get(entry, "date")
    ensures !Truthy(Get(entry, "date")) && Truthy(Get(entry, "time")) ==> PeriodOf(entry) == Get(entry, "time")
    ensures !Truthy(Get(entry, "date")) && !Truthy(Get(entry, "time")) ==> PeriodOf(entry) == Get(entry, "period")
  {
  }

  /** Every record has the keys the ONS store requires, so storing it never raises. */
  lemma EntryRecordStorable(l: Labels, dimension: string, entry: Json)
    ensures OnsRowOf(EntryRecord(l, dimension, entry)).Ok?
  {
    var f := EntryRecord(l, dimension, entry).fields;
    assert f[0].0 == "dataset_id" && f[1].0 == "series_id" && f[3].0 == "period_label";
  }

  /** The records of one group: one per dated entry, in entry order. */
  function GroupRecords(l: Labels, dimension: string, entries: seq<Json>): (r: seq<Json>)
    ensures |r| <= |entries|
  {
    if entries == [] then []
    else
      var last := entries[|entries| - 1];
      GroupRecords(l, dimension, entries[..|entries| - 1]) + (if Dated(last) then [EntryRecord(l, dimension, last)] else [])
  }

  /**
   * Skipping keeps order: the records of a group are exactly the records of its dated
   * entries, position by position.
   */
  lemma {:induction false} GroupRecordsOrder(l: Labels, dimension: string, entries: seq<Json>)
    ensures var kept := Filter(entries, Dated);
      |GroupRecords(l, dimension, entries)| == |kept|
      && forall k :: 0 <= k < |kept| ==> GroupRecords(l, dimension, entries)[k] == EntryRecord(l, dimension, kept[k])
  {
    if entries != [] {
      var init := entries[..|entries| - 1];
      var last := entries[|entries| - 1];
      GroupRecordsOrder(l, dimension, init);
      assert entries == init + [last];
      FilterSnoc(init, last, Dated);
    }
  }

  /** Records that all carry the group's name, a truthy period and the stored keys. */
  predicate RecordsOfGroup(rs: seq<Json>, dimension: string) {
    forall k :: 0 <= k < |rs| ==>
      Get(rs[k], "dimension") == JStr(dimension) && Truthy(Get(rs[k], "period_label")) && OnsRowOf(rs[k]).Ok?
  }

  /** Every record of a group is stored under that group's name, has a truthy period and can be stored. */
  lemma GroupRecordsShape(l: Labels, dimension: string, entries: seq<Json>)
    ensures RecordsOfGroup(GroupRecords(l, dimension, entries), dimension)
  {
    GroupRecordsOrder(l, dimension, entries);
    var kept := Filter(entries, Dated);
    var rs := GroupRecords(l, dimension, entries);
    forall k | 0 <= k < |rs|
      ensures Get(rs[k], "dimension") == JStr(dimension) && Truthy(Get(rs[k], "period_label")) && OnsRowOf(rs[k]).Ok?
    {
      assert kept[k] in kept;
      EntryRecordFields(l, dimension, kept[k]);
      EntryRecordStorable(l, dimension, kept[k]);
    }
  }

  /** The records of the first groups of `groups`, group by group. */
  function GroupsRecords(l: Labels, payload: Json, groups: seq<string>): seq<Json> {
    if groups == [] then []
    else
      var g := groups[|groups| - 1];
      GroupsRecords(l, payload, groups[..|groups| - 1]) + GroupRecords(l, g, GroupEntries(payload, g))
  }

  /** `build_records(payload, dataset_id, series_id)` as a value. */
  function OnsRecords(payload: Json, datasetId: string, seriesId: string, parseFloat: string -> Option<real>): seq<Json> {
    GroupsRecords(LabelsOf(payload, datasetId, seriesId, parseFloat), payload, Groups)
  }

  /** The months come first, then the quarters, then the years. */
  lemma OnsRecordsGroups(payload: Json, datasetId: string, seriesId: string, parseFloat: string -> Option<real>)
    ensures var l := LabelsOf(payload, datasetId, seriesId, parseFloat);
      OnsRecords(payload, datasetId, seriesId, parseFloat) ==
        GroupRecords(l, "months", GroupEntries(payload, "months"))
        + GroupRecords(l, "quarters", GroupEntries(payload, "quarters"))
        + GroupRecords(l, "years", GroupEntries(payload, "years"))
  {
    var l := LabelsOf(payload, datasetId, seriesId, parseFloat);
    var two := ["months", "quarters"];
    assert Groups[..2] == two && Groups[2] == "years";
    assert GroupsRecords(l, payload, Groups) == GroupsRecords(l, payload, two) + GroupRecords(l, "years", GroupEntries(payload, "years"));
    assert two[..1] == ["months"] && ["months"][..0] == [];
    assert GroupsRecords(l, payload, two) == GroupsRecords(l, payload, ["months"]) + GroupRecords(l, "quarters", GroupEntries(payload, "quarters"));
    assert GroupsRecords(l, payload, ["months"]) == GroupRecords(l, "months", GroupEntries(payload, "months"));
  }

  /** The rank of a group in the flattening order. */
  function GroupRank(dimension: Json): nat {
    if dimension == JStr("months") then 0 else if dimension == JStr("quarters") then 1 else 2
  }

  lemma ConcatAt(ms: seq<Json>, qs: seq<Json>, ys: seq<Json>, k: nat)
    requires k < |ms| + |qs| + |ys|
    ensures (ms + qs + ys)[k] == if k < |ms| then ms[k] else if k < |ms| + |qs| then qs[k - |ms|] else ys[k - |ms| - |qs|]
  {
  }

  /**
   * Each record's dimension is the group it came from and its period is truthy; the
   * groups never interleave; and every record can be stored.
   */
  lemma OnsRecordsOrdered(payload: Json, datasetId: string, seriesId: string, parseFloat: string -> Option<real>)
    ensures var rs := OnsRecords(payload, datasetId, seriesId, parseFloat);
      (forall k :: 0 <= k < |rs| ==>
        Get(rs[k], "dimension") in [JStr("months"), JStr("quarters"), JStr("years")]
        && Truthy(Get(rs[k], "period_label")) && OnsRowOf(rs[k]).Ok?)
      && forall i, j :: 0 <= i < j < |rs| ==> GroupRank(Get(rs[i], "dimension")) <= GroupRank(Get(rs[j], "dimension"))
  {
    var l := LabelsOf(payload, datasetId, seriesId, parseFloat);
    var ms := GroupRecords(l, "months", GroupEntries(payload, "months"));
    var qs := GroupRecords(l, "quarters", GroupEntries(payload, "quarters"));
    var ys := GroupRecords(l, "years", GroupEntries(payload, "years"));
    OnsRecordsGroups(payload, datasetId, seriesId, parseFloat);
    GroupRecordsShape(l, "months", GroupEntries(payload, "months"));
    GroupRecordsShape(l, "quarters", GroupEntries(payload, "quarters"));
    GroupRecordsShape(l, "years", GroupEntries(payload, "years"));
    ThreeGroups(ms, qs, ys);
  }

  lemma ThreeGroups(ms: seq<Json>, qs: seq<Json>, ys: seq<Json>)
    requires RecordsOfGroup(ms, "months") && RecordsOfGroup(qs, "quarters") && RecordsOfGroup(ys, "years")
    ensures var rs := ms + qs + ys;
      (forall k :: 0 <= k < |rs| ==>
        Get(rs[k], "dimension") in [JStr("months"), JStr("quarters"), JStr("years")]
        && Truthy(Get(rs[k], "period_label")) && OnsRowOf(rs[k]).Ok?)
      && forall i, j :: 0 <= i < j < |rs| ==> GroupRank(Get(rs[i], "dimension")) <= GroupRank(Get(rs[j], "dimension"))
  {
    var rs := ms + qs + ys;
    forall k | 0 <= k < |rs|
      ensures GroupRank(Get(rs[k], "dimension")) == (if k < |ms| then 0 else if k < |ms| + |qs| then 1 else 2)
      ensures Get(rs[k], "dimension") in [JStr("months"), JStr("quarters"), JStr("years")]
      ensures Truthy(Get(rs[k], "period_label")) && OnsRowOf(rs[k]).Ok?
    {
      ConcatAt(ms, qs, ys, k);
    }
  }

  /** Storing the decoded records never raises a missing-key error. */
  lemma OnsRecordsStorable(payload: Json, datasetId: string, seriesId: string, parseFloat: string -> Option<real>)
    ensures OnsRows(OnsRecords(payload, datasetId, seriesId, parseFloat)).Ok?
  {
    OnsRecordsOrdered(payload, datasetId, seriesId, parseFloat);
  }

  /** `build_records(payload, dataset_id, series_id)`: the groups in order, each entry in order, undated ones skipped. */
  method BuildRecords(payload: Json, datasetId: string, seriesId: string, parseFloat: string -> Option<real>)
    returns (records: seq<Json>)
    ensures records == OnsRecords(payload, datasetId, seriesId, parseFloat)
  {
    var l := LabelsOf(payload, datasetId, seriesId, parseFloat);
    records := [];
    var gi := 0;
    while gi < |Groups|
      invariant 0 <= gi <= |Groups|
      invariant records == GroupsRecords(l, payload, Groups[..gi])
    {
      var dimension := Groups[gi];
      var more := BuildGroupRecords(l, dimension, GroupEntries(payload, dimension));
      assert Groups[..gi + 1][..gi] == Groups[..gi];
      records := records + more;
      gi := gi + 1;
    }
    assert Groups[..gi] == Groups;
  }

  /** The inner loop of `build_records` over the entries of one group. */
  method BuildGroupRecords(l: Labels, dimension: string, entries: seq<Json>) returns (records: seq<Json>)
    ensures records == GroupRecords(l, dimension, entries)
  {
    records := [];
    var j := 0;
    while j < |entries|
      invariant 0 <= j <= |entries|
      invariant records == GroupRecords(l, dimension, entries[..j])
    {
      var entry := entries[j];
      assert entries[..j + 1][..j] == entries[..j];
      if !Truthy(PeriodOf(entry)) {
        j := j + 1;
        continue;
      }
      records := records + [EntryRecord(l, dimension, entry)];
      j := j + 1;
    }
    assert entries[..j] == entries;
  }

  // ---------------------------------------------------------------------------------
  // Fetching and storing

  /** The resolved parameters of one ONS ingestion. */
  datatype OnsParams = OnsParams(datasetId: string, seriesId: string, timeFilter: Option<string>)

  /**
   * `fetch_and_store(series_id, dataset_id, time_filter)`. `fetch` stands for the HTTP
   * call and returns the decoded response. The records built from it are upserted into
   * the ONS table; the count is the number of records. A page of the batch that hits one
   * conflict key twice raises and writes nothing.
   */
  method FetchAndStore(tables: ObservationTables, p: OnsParams, fetch: HttpRequest -> Json, parseFloat: string -> Option<real>)
    returns (r: Result<nat>)
    requires tables.Valid()
    modifies tables
    ensures tables.Valid() && tables.oecd == old(tables.oecd)
    ensures var recs := OnsRecords(fetch(TimeseriesRequest(p.seriesId, p.datasetId, p.timeFilter)), p.datasetId, p.seriesId, parseFloat);
      OnsRows(recs).Ok?
      && (!PagesDistinct(OnsRows(recs).value, OnsKeyOf) ==> r == Err(CardinalityError) && tables.ons == old(tables.ons))
      && (PagesDistinct(OnsRows(recs).value, OnsKeyOf) ==>
            r == Ok(|recs|) && tables.ons == Upsert(old(tables.ons), OnsRows(recs).value, OnsKeyOf, OnsStoreConflict))
  {
    var payload := fetch(TimeseriesRequest(p.seriesId, p.datasetId, p.timeFilter));
    var records := BuildRecords(payload, p.datasetId, p.seriesId, parseFloat);
    OnsRecordsStorable(payload, p.datasetId, p.seriesId, parseFloat);
    r := tables.StoreOns(records);
  }

  // ---------------------------------------------------------------------------------
  // Command parameters

  /** The command-line arguments; `parse_args` guarantees both identifiers without `--config`. */
  datatype OnsArgs = OnsArgs(config: Option<string>, series: Option<string>, dataset: Option<string>, timeFilter: Option<string>)

  function NoConfigError(slug: string): string {
    "No enabled economic_data_sources entry found for slug '" + slug + "' with provider ONS."
  }

  function IncompleteConfigError(slug: string): string {
    "Configuration '" + slug + "' is missing dataset/series identifiers."
  }

  /**
   * `resolve_parameters(args)`. With `--config`: the row must exist for provider ONS; the
   * dataset is its `dataset_id`, else its `dataset_code`, the series its `series_id`, both
   * stripped and non-empty; `--time` wins over the row's time filter. Without it the
   * arguments are stripped and the time filter is passed through.
   */
  function ResolveParameters(args: OnsArgs, table: seq<SourceConfig>): (r: Result<OnsParams>)
    requires !Present(args.config) ==> Present(args.series) && Present(args.dataset)
    ensures Present(args.config) && GetDataSourceConfig(table, args.config.value, Some("ONS")).None? ==>
      r == Err(NoConfigError(args.config.value))
    ensures Present(args.config) && GetDataSourceConfig(table, args.config.value, Some("ONS")).Some? ==>
      var c := GetDataSourceConfig(table, args.config.value, Some("ONS")).value;
      var dataset := Strip(Or(OrOpt(c.datasetId, c.datasetCode), ""));
      var series := Strip(Or(c.seriesId, ""));
      (r.Err? <==> dataset == "" || series == "")
      && (r.Err? ==> r.error == IncompleteConfigError(args.config.value))
      && (r.Ok? ==> r.value == OnsParams(dataset, series, OrOpt(args.timeFilter, c.timeFilter)))
    ensures Present(args.config) && r.Ok? ==> r.value.datasetId != "" && r.value.seriesId != ""
    ensures !Present(args.config) ==>
      r == Ok(OnsParams(Strip(args.dataset.value), Strip(args.series.value), args.timeFilter))
  {
    if Present(args.config) then
      match GetDataSourceConfig(table, args.config.value, Some("ONS"))
      case None => Err(NoConfigError(args.config.value))
      case Some(c) =>
        var dataset := Strip(Or(OrOpt(c.datasetId, c.datasetCode), ""));
        var series := Strip(Or(c.seriesId, ""));
        if dataset == "" || series == "" then Err(IncompleteConfigError(args.config.value))
        else Ok(OnsParams(dataset, series, OrOpt(args.timeFilter, c.timeFilter)))
    else
      Ok(OnsParams(Strip(args.dataset.value), Strip(args.series.value), args.timeFilter))
  }
}
