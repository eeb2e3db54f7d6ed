/**
 * Reading stored observations back: the parameterised queries over the two observation
 * tables, the renaming of OECD rows to the ONS vocabulary, and the resolution of a
 * catalogue slug to the query it runs.
 */
module SeriesService {
  import opened Base
  import opened Sql
  import opened EconomicData

  const OnsSelectSql: string :=
    "SELECT dataset_id, series_id, title, period_label, value, unit, measure, dimension, metadata FROM ons_economic_series WHERE series_id = "
  const OecdSelectSql: string :=
    "SELECT dataset_code, location, subject, measure, frequency, period_label, value, unit, metadata FROM oecd_economic_series WHERE dataset_code = "
  const OecdLocationSql: string := " AND location = "
  const OecdSubjectSql: string := " AND COALESCE(subject, '') = COALESCE("
  const OecdMeasureSql: string := ", '') AND COALESCE(measure, '') = COALESCE("
  const OecdFrequencySql: string := ", '') AND COALESCE(frequency, '') = COALESCE("
  const OecdCloseSql: string := ", '')"
  const DatasetSql: string := " AND dataset_id = "
  const StartSql: string := " AND period_label >= "
  const EndSql: string := " AND period_label <= "
  const OrderSql: string := " ORDER BY period_label DESC LIMIT "

  const OnsSelect: seq<Fragment> := [Text(OnsSelectSql), Hole]
  const OecdSelect: seq<Fragment> := [
    Text(OecdSelectSql), Hole, Text(OecdLocationSql), Hole, Text(OecdSubjectSql), Hole,
    Text(OecdMeasureSql), Hole, Text(OecdFrequencySql), Hole, Text(OecdCloseSql)]
  const DatasetFilter: seq<Fragment> := [Text(DatasetSql), Hole]
  const StartFilter: seq<Fragment> := [Text(StartSql), Hole]
  const EndFilter: seq<Fragment> := [Text(EndSql), Hole]
  const OrderTail: seq<Fragment> := [Text(OrderSql), Hole]

  /** The identity part of the OECD query binds five values. */
  lemma OecdSelectHoles()
    ensures Holes(OecdSelect) == 5
  {
    FiveHoles(OecdSelectSql, OecdLocationSql, OecdSubjectSql, OecdMeasureSql, OecdFrequencySql, OecdCloseSql);
  }

  /** Five texts each followed by a hole, then a closing text. */
  lemma FiveHoles(a: string, b: string, c: string, d: string, e: string, f: string)
    ensures Holes([Text(a), Hole, Text(b), Hole, Text(c), Hole, Text(d), Hole, Text(e), Hole, Text(f)]) == 5
  {
    var tail := [Text(f)];
    assert Holes(tail) == 0 by { assert tail[1..] == []; }
    var q4 := [Text(e), Hole] + tail;
    var q3 := [Text(d), Hole] + q4;
    var q2 := [Text(c), Hole] + q3;
    var q1 := [Text(b), Hole] + q2;
    var q0 := [Text(a), Hole] + q1;
    HolesPair(e, tail);
    HolesPair(d, q4);
    HolesPair(c, q3);
    HolesPair(b, q2);
    HolesPair(a, q1);
    assert [Text(a), Hole, Text(b), Hole, Text(c), Hole, Text(d), Hole, Text(e), Hole, Text(f)] == q0;
  }

  /** A text followed by a hole adds one hole. */
  lemma HolesPair(t: string, rest: seq<Fragment>)
    ensures Holes([Text(t), Hole] + rest) == 1 + Holes(rest)
  {
    var q := [Text(t), Hole] + rest;
    assert q[1..][1..] == rest;
  }

  /** The clause and parameter an optional filter adds when its value is truthy. */
  function OptClause(clause: seq<Fragment>, value: Option<string>): seq<Fragment> {
    if Present(value) then clause else []
  }

  function OptParam(value: Option<string>): seq<Param> {
    if Present(value) then [PStr(value.value)] else []
  }

  /**
   * `if value: query += clause; params.append(value)`, for a clause with one placeholder:
   * the placeholder and parameter counts stay equal.
   */
  method AddFilter(query: seq<Fragment>, params: seq<Param>, clause: seq<Fragment>, value: Option<string>)
    returns (query': seq<Fragment>, params': seq<Param>)
    requires Holes(query) == |params| && Holes(clause) == 1
    ensures query' == query + OptClause(clause, value)
    ensures params' == params + OptParam(value)
    ensures Holes(query') == |params'|
  {
    query', params' := query, params;
    if Present(value) {
      HolesAppend(query, clause);
      query' := query + clause;
      params' := params + [PStr(value.value)];
    } else {
      assert query + [] == query && params + [] == params;
    }
  }

  lemma FilterHoles()
    ensures Holes(DatasetFilter) == 1 && Holes(StartFilter) == 1 && Holes(EndFilter) == 1 && Holes(OrderTail) == 1
  {
    assert DatasetFilter[1..][1..] == [] && StartFilter[1..][1..] == [];
    assert EndFilter[1..][1..] == [] && OrderTail[1..][1..] == [];
  }

  /**
   * `fetch_ons_series`: the parameters are the series id, then the dataset id and the two
   * period bounds each only when given and in that order, then the limit; the driver finds
   * one placeholder per parameter and the query always ends with the descending order and
   * the limit.
   */
  method OnsQuery(seriesId: string, datasetId: Option<string>, startPeriod: Option<string>, endPeriod: Option<string>, limit: int)
    returns (query: seq<Fragment>, params: seq<Param>)
    ensures Holes(query) == |params|
    ensures query == OnsSelect + OptClause(DatasetFilter, datasetId) + OptClause(StartFilter, startPeriod)
                   + OptClause(EndFilter, endPeriod) + OrderTail
    ensures params == [PStr(seriesId)] + OptParam(datasetId) + OptParam(startPeriod) + OptParam(endPeriod) + [PInt(limit)]
    ensures |query| >= |OrderTail| && query[|query| - |OrderTail|..] == OrderTail
  {
    FilterHoles();
    assert Holes(OnsSelect) == 1 by { assert OnsSelect[1..][1..] == []; }
    query := OnsSelect;
    params := [PStr(seriesId)];
    query, params := AddFilter(query, params, DatasetFilter, datasetId);
    query, params := AddFilter(query, params, StartFilter, startPeriod);
    query, params := AddFilter(query, params, EndFilter, endPeriod);
    HolesAppend(query, OrderTail);
    query := query + OrderTail;
    params := params + [PInt(limit)];
  }

  /**
   * `fetch_oecd_series`: the five identity values first, then the optional period bounds,
   * then the limit, with one placeholder per parameter.
   */
  method OecdQuery(
    datasetCode: Option<string>, location: string, subject: string, measure: string, frequency: string,
    startPeriod: Option<string>, endPeriod: Option<string>, limit: int)
    returns (query: seq<Fragment>, params: seq<Param>)
    ensures Holes(query) == |params|
    ensures query == OecdSelect + OptClause(StartFilter, startPeriod) + OptClause(EndFilter, endPeriod) + OrderTail
    ensures params == [OptStr(datasetCode), PStr(location), PStr(subject), PStr(measure), PStr(frequency)]
                    + OptParam(startPeriod) + OptParam(endPeriod) + [PInt(limit)]
    ensures |params| >= 6 && params[..5] == [OptStr(datasetCode), PStr(location), PStr(subject), PStr(measure), PStr(frequency)]
    ensures |query| >= |OrderTail| && query[|query| - |OrderTail|..] == OrderTail
  {
    FilterHoles();
    OecdSelectHoles();
    query := OecdSelect;
    params := [OptStr(datasetCode), PStr(location), PStr(subject), PStr(measure), PStr(frequency)];
    query, params := AddFilter(query, params, StartFilter, startPeriod);
    query, params := AddFilter(query, params, EndFilter, endPeriod);
    HolesAppend(query, OrderTail);
    query := query + OrderTail;
    params := params + [PInt(limit)];
  }

  /** One OECD row after `row["dataset_id"] = row.get("dataset_code")` and `row["series_id"] = row.get("subject")`. */
  function Remapped(row: Json): (r: Json)
    ensures Get(r, "dataset_id") == Get(row, "dataset_code")
    ensures Get(r, "series_id") == Get(row, "subject")
    ensures forall k :: k != "dataset_id" && k != "series_id" ==> Get(r, k) == Get(row, k)
  {
    Put(Put(row, "dataset_id", Get(row, "dataset_code")), "series_id", Get(row, "subject"))
  }

  /** The loop of `fetch_oecd_series` that renames the identity columns of every row. */
  method RemapOecdRows(rows: seq<Json>) returns (dataPoints: seq<Json>)
    ensures |dataPoints| == |rows|
    ensures forall i :: 0 <= i < |rows| ==> dataPoints[i] == Remapped(rows[i])
  {
    dataPoints := [];
    var i := 0;
    while i < |rows|
      invariant 0 <= i <= |rows|
      invariant |dataPoints| == i
      invariant forall j :: 0 <= j < i ==> dataPoints[j] == Remapped(rows[j])
    {
      var row := rows[i];
      row := Put(row, "dataset_id", Get(row, "dataset_code"));
      row := Put(row, "series_id", Get(row, "subject"));
      dataPoints := dataPoints + [row];
      i := i + 1;
    }
  }

  // ---------------------------------------------------------------------------------
  // resolve_series_by_slug

  /** The query a resolved slug runs, with the arguments the source passes to it. */
  datatype FetchRequest =
    | OnsFetch(seriesId: string, datasetId: Option<string>, startPeriod: Option<string>, endPeriod: Option<string>, limit: int)
    | OecdFetch(datasetCode: Option<string>, location: string, subject: string, measure: string, frequency: string,
                startPeriod: Option<string>, endPeriod: Option<string>, limit: int)

  /**
   * The dict `resolve_series_by_slug` returns. `dataset` is `dataset_id` for ONS and
   * `dataset_code` for OECD; `data` holds the rows the query returns.
   */
  datatype Resolution = Resolution(
    slug: string, provider: string, dataset: Option<string>, seriesId: string,
    request: FetchRequest, data: seq<Json>)

  /**
   * `resolve_series_by_slug(slug, ...)`. `rowsFor` stands for the database: the rows the
   * query of a request returns, in its order.
   */
  function ResolveSeriesBySlug(
    table: seq<SourceConfig>, slug: string, limit: int,
    startPeriod: Option<string>, endPeriod: Option<string>,
    rowsFor: FetchRequest -> seq<Json>): (r: Result<Resolution>)
    ensures GetDataSourceConfig(table, slug, None).None? ==>
      r == Err("No configuration found for slug '" + slug + "'.")
    ensures r.Ok? ==>
      r.value.slug == slug && GetDataSourceConfig(table, slug, None).Some?
      && r.value.provider == GetDataSourceConfig(table, slug, None).value.provider
      && r.value.provider in {"ONS", "OECD"}
    ensures r.Ok? ==>
      r.value.request.startPeriod == startPeriod && r.value.request.endPeriod == endPeriod
      && r.value.request.limit == limit
    ensures r.Ok? && r.value.provider == "ONS" ==>
      var c := GetDataSourceConfig(table, slug, None).value;
      Present(c.seriesId)
      && r.value.request == OnsFetch(c.seriesId.value, c.datasetId, startPeriod, endPeriod, limit)
      && r.value.dataset == c.datasetId && r.value.seriesId == c.seriesId.value
      && r.value.data == rowsFor(r.value.request)
    ensures r.Ok? && r.value.provider == "OECD" ==>
      var c := GetDataSourceConfig(table, slug, None).value;
      Present(c.datasetCode) && Present(c.subject) && Present(c.measure) && Present(c.frequency)
      && r.value.request == OecdFetch(c.datasetCode, Or(c.location, "GBR"), c.subject.value, c.measure.value, c.frequency.value,
                                      startPeriod, endPeriod, limit)
      && r.value.dataset == c.datasetCode && r.value.seriesId == c.subject.value
    ensures r.Ok? && r.value.provider == "OECD" ==>
      r.value.request.OecdFetch? && |r.value.data| == |rowsFor(r.value.request)|
      && forall i :: 0 <= i < |r.value.data| ==> r.value.data[i] == Remapped(rowsFor(r.value.request)[i])
  {
    match GetDataSourceConfig(table, slug, None)
    case None => Err("No configuration found for slug '" + slug + "'.")
    case Some(config) =>
      if config.provider == "ONS" then
        if !Present(config.seriesId) then Err("ONS configuration missing series_id.")
        else
          var request := OnsFetch(config.seriesId.value, config.datasetId, startPeriod, endPeriod, limit);
          Ok(Resolution(slug, config.provider, config.datasetId, config.seriesId.value, request, rowsFor(request)))
      else if config.provider == "OECD" then
        var location := Or(config.location, "GBR");
        var subject := Or(config.subject, "");
        var measure := Or(config.measure, "");
        var frequency := Or(config.frequency, "");
        if !Present(config.datasetCode) || subject == "" || measure == "" || frequency == "" then
          Err("OECD configuration is incomplete.")
        else
          var request := OecdFetch(config.datasetCode, location, subject, measure, frequency, startPeriod, endPeriod, limit);
          var rows := rowsFor(request);
          Ok(Resolution(slug, config.provider, config.datasetCode, subject, request,
                        seq(|rows|, i requires 0 <= i < |rows| => Remapped(rows[i]))))
      else Err("Unsupported provider '" + config.provider + "'.")
  }

  /**
   * The four ways resolution fails, each with its ValueError message, and the OECD
   * location defaulting to GBR.
   */
  lemma ResolveErrors(
    table: seq<SourceConfig>, slug: string, limit: int,
    startPeriod: Option<string>, endPeriod: Option<string>, rowsFor: FetchRequest -> seq<Json>)
    requires GetDataSourceConfig(table, slug, None).Some?
    ensures var c := GetDataSourceConfig(table, slug, None).value;
      var r := ResolveSeriesBySlug(table, slug, limit, startPeriod, endPeriod, rowsFor);
      (c.provider == "ONS" ==> (r.Err? <==> !Present(c.seriesId)))
      && (c.provider == "ONS" && !Present(c.seriesId) ==> r == Err("ONS configuration missing series_id."))
      && (c.provider == "OECD" ==>
            (r.Err? <==> !Present(c.datasetCode) || !Present(c.subject) || !Present(c.measure) || !Present(c.frequency)))
      && (c.provider == "OECD" && r.Err? ==> r == Err("OECD configuration is incomplete."))
      && (c.provider == "OECD" && r.Ok? ==>
            r.value.request == OecdFetch(c.datasetCode, Or(c.location, "GBR"), c.subject.value, c.measure.value,
                                         c.frequency.value, startPeriod, endPeriod, limit)
            && r.value.seriesId == c.subject.value && r.value.dataset == c.datasetCode)
      && (c.provider == "ONS" && r.Ok? ==>
            r.value.request == OnsFetch(c.seriesId.value, c.datasetId, startPeriod, endPeriod, limit)
            && r.value.seriesId == c.seriesId.value && r.value.dataset == c.datasetId)
      && (c.provider != "ONS" && c.provider != "OECD" ==> r == Err("Unsupported provider '" + c.provider + "'."))
  {
  }
}
