/**
 * The OECD fetcher: decoding an SDMX-JSON 1.0 data message into observation records
 * for the OECD table, the series key of a request, and the resolution of the command's
 * parameters against a configuration row.
 */
module OecdFetcher {
  import opened Base
  import opened EconomicData

  // ---------------------------------------------------------------------------------
  // The request

  const OecdBaseUrl: string := "https://stats.oecd.org/SDMX-JSON/data"

  /** An HTTP GET: the URL and the query parameters in order. */
  datatype HttpRequest = HttpRequest(url: string, params: seq<(string, string)>)

  /**
   * `fetch_series(dataset, series_key, time_window)` up to the network call: the
   * parameters always ask for JSON with code detail and time at the observation level,
   * and carry `time` only for a non-empty window.
   */
  function SeriesRequest(dataset: string, seriesKey: string, timeWindow: Option<string>): (r: HttpRequest)
    ensures r.url == OecdBaseUrl + "/" + dataset + "/" + seriesKey + "/all"
    ensures |r.params| >= 3
    ensures r.params[..3] == [("contentType", "application/json"), ("detail", "code"), ("dimensionAtObservation", "TimeDimension")]
    ensures Present(timeWindow) <==> |r.params| == 4
    ensures Present(timeWindow) ==> r.params[3] == ("time", timeWindow.value)
  {
    var base := [("contentType", "application/json"), ("detail", "code"), ("dimensionAtObservation", "TimeDimension")];
    HttpRequest(OecdBaseUrl + "/" + dataset + "/" + seriesKey + "/all",
                base + (if Present(timeWindow) then [("time", timeWindow.value)] else []))
  }

  predicate NonEmpty(s: string) { s != "" }

  /** `".".join(filter(None, [location, subject, measure, frequency]))` */
  function SeriesKey(location: string, subject: string, measure: string, frequency: string): string {
    Join(".", Filter([location, subject, measure, frequency], NonEmpty))
  }

  /** With every part given, the key is the four parts separated by dots. */
  lemma SeriesKeyFull(location: string, subject: string, measure: string, frequency: string)
    requires location != "" && subject != "" && measure != "" && frequency != ""
    ensures SeriesKey(location, subject, measure, frequency) == location + "." + subject + "." + measure + "." + frequency
  {
    var p4 := [location, subject, measure, frequency];
    FilterAll(p4);
    JoinFour(location, subject, measure, frequency);
  }

  lemma {:induction false} FilterAll(parts: seq<string>)
    requires forall k :: 0 <= k < |parts| ==> parts[k] != ""
    ensures Filter(parts, NonEmpty) == parts
  {
    if parts != [] {
      var init := parts[..|parts| - 1];
      FilterAll(init);
      assert parts == init + [parts[|parts| - 1]];
    }
  }

  lemma JoinFour(a: string, b: string, c: string, d: string)
    ensures Join(".", [a, b, c, d]) == a + "." + b + "." + c + "." + d
  {
    var p2, p3, p4 := [a, b], [a, b, c], [a, b, c, d];
    assert p4[..3] == p3 && p3[..2] == p2 && p2[..1] == [a];
    assert Join(".", p2) == a + "." + b;
    assert Join(".", p3) == a + "." + b + "." + c;
  }

  /**
   * The key names exactly the non-empty parts: splitting it at the dots gives them back,
   * in order, when no part contains a dot.
   */
  lemma SeriesKeyParts(location: string, subject: string, measure: string, frequency: string)
    requires '.' !in location && '.' !in subject && '.' !in measure && '.' !in frequency
    requires location != "" || subject != "" || measure != "" || frequency != ""
    ensures Split(SeriesKey(location, subject, measure, frequency), '.') == Filter([location, subject, measure, frequency], NonEmpty)
  {
    var parts := [location, subject, measure, frequency];
    var kept := Filter(parts, NonEmpty);
    var x := if location != "" then location else if subject != "" then subject
             else if measure != "" then measure else frequency;
    assert x in parts && NonEmpty(x);
    assert x in kept;
    forall k | 0 <= k < |kept| ensures '.' !in kept[k] {
      assert kept[k] in parts;
    }
    assert ['.'] == ".";
    SplitJoin(kept, '.');
  }

  // ---------------------------------------------------------------------------------
  // Series dimensions

  /** `dimension.get("values", [])` */
  function Values(dim: Json): seq<Json> {
    Items(GetOr(dim, "values", JArr([])))
  }

  /**
   * `dimension.get("id", f"dim_{idx}")` for a string id. An id that is present but not a
   * string also gives `dim_<idx>`, where the source keeps that value.
   */
  function DimId(dim: Json, idx: nat): string {
    match GetOr(dim, "id", JNull)
    case JStr(s) => s
    case _ => "dim_" + NatToString(idx)
  }

  function IntError(key: string): string {
    "invalid literal for int() with base 10: '" + key + "'"
  }

  const IndexError: string := "list index out of range"

  /** A key that `int()` accepts and that indexes the values from the front or the back. */
  predicate KeyUsable(dim: Json, key: string) {
    ParseInt(key).Some? && ParseInt(key).value >= -|Values(dim)|
  }

  /** A usable key below the number of values: the dimension takes a value. */
  predicate KeyApplies(dim: Json, key: string) {
    KeyUsable(dim, key) && ParseInt(key).value < |Values(dim)|
  }

  /** `values[int(key)]`, counting from the back for a negative index. */
  function Chosen(dim: Json, key: string): Json
    requires KeyApplies(dim, key)
  {
    var k := ParseInt(key).value;
    Values(dim)[if k >= 0 then k else |Values(dim)| + k]
  }

  /** One step of the loop in `_extract_dimension_values`. */
  function Resolve(acc: seq<(string, Json)>, dim: Json, key: string, idx: nat): Result<seq<(string, Json)>> {
    match ParseInt(key)
    case None => Err(IntError(key))
    case Some(k) =>
      if k >= |Values(dim)| then Ok(acc)
      else if k < -|Values(dim)| then Err(IndexError)
      else Ok(SetField(acc, DimId(dim, idx), Chosen(dim, key)))
  }

  /** The first `n` dimension/key pairs folded into the resolved dictionary. */
  function DimensionValues(dims: seq<Json>, keys: seq<string>, n: nat): (r: Result<seq<(string, Json)>>)
    requires n <= |dims| && n <= |keys|
    ensures r.Ok? <==> forall idx :: 0 <= idx < n ==> KeyUsable(dims[idx], keys[idx])
  {
    if n == 0 then Ok([])
    else
      match DimensionValues(dims, keys, n - 1)
      case Err(e) => Err(e)
      case Ok(acc) => Resolve(acc, dims[n - 1], keys[n - 1], n - 1)
  }

  /** Once a pair raises, the whole extraction raises with that error. */
  lemma {:induction false} DimensionValuesErr(dims: seq<Json>, keys: seq<string>, i: nat, m: nat)
    requires i <= m <= |dims| && m <= |keys|
    requires DimensionValues(dims, keys, i).Err?
    ensures DimensionValues(dims, keys, m) == DimensionValues(dims, keys, i)
    decreases m - i
  {
    if i < m {
      DimensionValuesErr(dims, keys, i + 1, m);
    }
  }

  function Paired(dims: seq<Json>, keys: seq<string>): nat {
    if |dims| <= |keys| then |dims| else |keys|
  }

  /** `_extract_dimension_values(dimensions, key_indexes)` as a value. */
  function ExtractedDims(dims: seq<Json>, keys: seq<string>): Result<Json> {
    match DimensionValues(dims, keys, Paired(dims, keys))
    case Ok(fields) => Ok(JObj(fields))
    case Err(e) => Err(e)
  }

  predicate DistinctDimIds(dims: seq<Json>, n: nat)
    requires n <= |dims|
  {
    forall i, j :: 0 <= i < j < n ==> DimId(dims[i], i) != DimId(dims[j], j)
  }

  /** One resolution step binds the dimension's id when its key applies and leaves every other id alone. */
  lemma ResolveLookup(acc: seq<(string, Json)>, dim: Json, key: string, idx: nat, id: string)
    requires Resolve(acc, dim, key, idx).Ok?
    ensures Lookup(Resolve(acc, dim, key, idx).value, id) ==
      if id == DimId(dim, idx) && KeyApplies(dim, key) then Some(Chosen(dim, key)) else Lookup(acc, id)
  {
  }

  /**
   * Dimensions pair with keys position by position: with distinct dimension ids, each of
   * the first `n` dimensions is bound to the value its key selects, or is absent when the
   * key is past the end of its values; no other id is bound.
   */
  lemma {:induction false} DimensionValuesSpec(dims: seq<Json>, keys: seq<string>, n: nat)
    requires n <= |dims| && n <= |keys|
    requires DistinctDimIds(dims, n)
    requires DimensionValues(dims, keys, n).Ok?
    ensures forall idx :: 0 <= idx < n ==>
      Lookup(DimensionValues(dims, keys, n).value, DimId(dims[idx], idx)) ==
        (if KeyApplies(dims[idx], keys[idx]) then Some(Chosen(dims[idx], keys[idx])) else None)
    ensures forall id :: (forall idx :: 0 <= idx < n ==> DimId(dims[idx], idx) != id) ==>
      Lookup(DimensionValues(dims, keys, n).value, id) == None
  {
    if n > 0 {
      DimensionValuesSpec(dims, keys, n - 1);
      var acc := DimensionValues(dims, keys, n - 1).value;
      var r := DimensionValues(dims, keys, n).value;
      var dim, key := dims[n - 1], keys[n - 1];
      var last := DimId(dim, n - 1);
      assert Resolve(acc, dim, key, n - 1) == Ok(r);
      forall idx | 0 <= idx < n
        ensures Lookup(r, DimId(dims[idx], idx)) == (if KeyApplies(dims[idx], keys[idx]) then Some(Chosen(dims[idx], keys[idx])) else None)
      {
        var id := DimId(dims[idx], idx);
        ResolveLookup(acc, dim, key, n - 1, id);
        if idx < n - 1 {
          assert id != last;
        }
      }
      forall id | forall idx :: 0 <= idx < n ==> DimId(dims[idx], idx) != id
        ensures Lookup(r, id) == None
      {
        ResolveLookup(acc, dim, key, n - 1, id);
        assert DimId(dims[n - 1], n - 1) != id;
      }
    }
  }

  /** The body of the loop in `_extract_dimension_values`: `int(key)` raises on a malformed key, `values[int(key)]` on one below `-len(values)`. */
  method ResolveKey(resolved: seq<(string, Json)>, dim: Json, key: string, idx: nat) returns (r: Result<seq<(string, Json)>>)
    ensures r == Resolve(resolved, dim, key, idx)
  {
    var values := Values(dim);
    var k := ParseInt(key);
    if k.None? {
      return Err(IntError(key));
    }
    if k.value >= |values| {
      return Ok(resolved);
    }
    if k.value < -|values| {
      return Err(IndexError);
    }
    r := Ok(SetField(resolved, DimId(dim, idx), Chosen(dim, key)));
  }

  /** `_extract_dimension_values(dimensions, key_indexes)` */
  method ExtractDimensionValues(dims: seq<Json>, keys: seq<string>) returns (r: Result<Json>)
    ensures r == ExtractedDims(dims, keys)
  {
    var n := Paired(dims, keys);
    var resolved: seq<(string, Json)> := [];
    var idx := 0;
    while idx < n
      invariant 0 <= idx <= n
      invariant DimensionValues(dims, keys, idx) == Ok(resolved)
    {
      var step := ResolveKey(resolved, dims[idx], keys[idx], idx);
      assert DimensionValues(dims, keys, idx + 1) == step;
      if step.Err? {
        DimensionValuesErr(dims, keys, idx + 1, n);
        assert DimensionValues(dims, keys, n) == Err(step.error);
        return Err(step.error);
      }
      resolved := step.value;
      idx := idx + 1;
    }
    assert DimensionValues(dims, keys, n) == Ok(resolved);
    r := Ok(JObj(resolved));
  }

  // ---------------------------------------------------------------------------------
  // The time dimension

  predicate IsTimeDimension(d: Json) {
    GetOr(d, "id", JNull) == JStr("TIME_PERIOD")
  }

  /**
   * `_time_lookup(observation_dimensions)`: `str(index)` bound to each value's id for the
   * first `TIME_PERIOD` dimension, and nothing when there is none.
   */
  function TimeLookup(obsDims: seq<Json>): (r: seq<(string, Json)>)
    ensures First(obsDims, IsTimeDimension).None? ==> r == []
  {
    match First(obsDims, IsTimeDimension)
    case None => []
    case Some(d) =>
      var vs := Values(d);
      seq(|vs|, i requires 0 <= i < |vs| => (NatToString(i), GetOr(vs[i], "id", JNull)))
  }

  /** The observation key `str(i)` reads the id of the `i`-th time value. */
  lemma TimeLookupAt(obsDims: seq<Json>, i: nat)
    requires First(obsDims, IsTimeDimension).Some?
    requires i < |Values(First(obsDims, IsTimeDimension).value)|
    ensures Lookup(TimeLookup(obsDims), NatToString(i)) ==
      Some(GetOr(Values(First(obsDims, IsTimeDimension).value)[i], "id", JNull))
  {
    var t := TimeLookup(obsDims);
    forall j | 0 <= j < i ensures t[j].0 != NatToString(i) {
      NatToStringInjective(j, i);
    }
    LookupFirst(t, NatToString(i), i);
  }

  /** `time_map.get(obs_key, obs_key)` */
  function PeriodLabel(timeMap: seq<(string, Json)>, obsKey: string): Json {
    match Lookup(timeMap, obsKey)
    case Some(v) => v
    case None => JStr(obsKey)
  }

  /** A key that is not the index of a time value is kept as the period label. */
  lemma PeriodLabelFallback(obsDims: seq<Json>, obsKey: string)
    requires forall i: nat :: obsKey != NatToString(i)
    ensures PeriodLabel(TimeLookup(obsDims), obsKey) == JStr(obsKey)
  {
    var t := TimeLookup(obsDims);
    if First(obsDims, IsTimeDimension).Some? {
      forall i | 0 <= i < |t| ensures t[i].0 != obsKey {
        assert t[i].0 == NatToString(i);
      }
    }
  }

  // ---------------------------------------------------------------------------------
  // Records

  /** The defaults `build_records` falls back to, from the request parameters. */
  datatype OecdDefaults = OecdDefaults(
    datasetCode: string, location: string, subject: string, measure: string, frequency: string, unit: Option<string>)

  /** `resolved_dims.get(name, {}).get("id", default)` */
  function DimCode(dims: Json, name: string, default: string): Json {
    GetOr(GetOr(dims, name, JObj([])), "id", JStr(default))
  }

  /** `value_list[0] if value_list else None` */
  function FirstObservation(valueList: Json): Json {
    if valueList.JArr? && |valueList.items| > 0 then valueList.items[0] else JNull
  }

  /** The record dict built for one observation. */
  function Record(d: OecdDefaults, dims: Json, period: Json, valueList: Json, parseFloat: string -> Option<real>): Json {
    var measure := DimCode(dims, "MEASURE", d.measure);
    JObj([
      ("dataset_code", JStr(d.datasetCode)),
      ("location", DimCode(dims, "LOCATION", d.location)),
      ("subject", DimCode(dims, "SUBJECT", d.subject)),
      ("measure", measure),
      ("frequency", DimCode(dims, "FREQUENCY", d.frequency)),
      ("period_label", period),
      ("value", ValueJson(FloatOf(FirstObservation(valueList), parseFloat))),
      ("unit", if Present(d.unit) then JStr(d.unit.value) else measure),
      ("metadata", JObj([("source", JStr("OECD")), ("series_dimensions", dims), ("raw_observation", valueList)]))])
  }

  lemma RecordKeys(d: OecdDefaults, dims: Json, period: Json, valueList: Json, parseFloat: string -> Option<real>)
    ensures UniqueKeys(Record(d, dims, period, valueList, parseFloat).fields)
  {
  }

  /**
   * A record carries the dataset code, the period, the normalised first value and the
   * unit (the given one, else the measure); each dimension is the resolved code, or the
   * default when the series key does not resolve it.
   */
  lemma RecordFields(d: OecdDefaults, dims: Json, period: Json, valueList: Json, parseFloat: string -> Option<real>)
    ensures var rec := Record(d, dims, period, valueList, parseFloat);
      Get(rec, "dataset_code") == JStr(d.datasetCode)
      && Get(rec, "period_label") == period
      && Get(rec, "value") == ValueJson(FloatOf(FirstObservation(valueList), parseFloat))
      && Get(rec, "unit") == (if Present(d.unit) then JStr(d.unit.value) else DimCode(dims, "MEASURE", d.measure))
      && Get(rec, "location") == DimCode(dims, "LOCATION", d.location)
      && Get(rec, "subject") == DimCode(dims, "SUBJECT", d.subject)
      && Get(rec, "measure") == DimCode(dims, "MEASURE", d.measure)
      && Get(rec, "frequency") == DimCode(dims, "FREQUENCY", d.frequency)
  {
    var f := Record(d, dims, period, valueList, parseFloat).fields;
    RecordKeys(d, dims, period, valueList, parseFloat);
    GetUnique(f, 0);
    GetUnique(f, 1);
    GetUnique(f, 2);
    GetUnique(f, 3);
    GetUnique(f, 4);
    GetUnique(f, 5);
    GetUnique(f, 6);
    GetUnique(f, 7);
  }

  /** An unresolved dimension takes the default code. */
  lemma DimCodeDefault(dims: Json, name: string, default: string)
    requires !Has(dims, name)
    ensures DimCode(dims, name, default) == JStr(default)
  {
  }

  /** Every record has the keys the OECD store requires, so storing it never raises. */
  lemma RecordStorable(d: OecdDefaults, dims: Json, period: Json, valueList: Json, parseFloat: string -> Option<real>)
    ensures OecdRowOf(Record(d, dims, period, valueList, parseFloat)).Ok?
  {
    var rec := Record(d, dims, period, valueList, parseFloat);
    assert rec.fields[0].0 == "dataset_code" && rec.fields[1].0 == "location" && rec.fields[5].0 == "period_label";
    StorableShape(rec.fields);
  }

  lemma StorableShape(fields: seq<(string, Json)>)
    requires |fields| > 5
    requires fields[0].0 == "dataset_code" && fields[1].0 == "location" && fields[5].0 == "period_label"
    ensures OecdRowOf(JObj(fields)).Ok?
  {
    assert HasKey(fields, "dataset_code") && HasKey(fields, "location") && HasKey(fields, "period_label");
  }

  /** What every record of one message shares: the defaults, the series dimensions and the time map. */
  datatype Context = Context(
    defaults: OecdDefaults, seriesDims: seq<Json>, timeMap: seq<(string, Json)>, parseFloat: string -> Option<real>)

  function Structure(payload: Json, part: string): seq<Json> {
    Items(GetOr(GetOr(GetOr(payload, "structure", JObj([])), "dimensions", JObj([])), part, JArr([])))
  }

  function ContextOf(payload: Json, d: OecdDefaults, parseFloat: string -> Option<real>): Context {
    Context(d, Structure(payload, "series"), TimeLookup(Structure(payload, "observation")), parseFloat)
  }

  /** `(payload.get("dataSets") or [{}])[0].get("series", {})` */
  function SeriesData(payload: Json): seq<(string, Json)> {
    var sets := Items(JOr(Get(payload, "dataSets"), JArr([JObj([])])));
    Fields(GetOr(if |sets| > 0 then sets[0] else JObj([]), "series", JObj([])))
  }

  function ObservationsOf(content: Json): seq<(string, Json)> {
    Fields(GetOr(content, "observations", JObj([])))
  }

  /** The record of one observation `(obs_key, value_list)` of a series. */
  function ObservationRecord(ctx: Context, dims: Json, obs: (string, Json)): Json {
    Record(ctx.defaults, dims, PeriodLabel(ctx.timeMap, obs.0), obs.1, ctx.parseFloat)
  }

  /** The records of one series, one per observation in order. */
  function SeriesRecords(ctx: Context, dims: Json, observations: seq<(string, Json)>): (r: seq<Json>)
    ensures |r| == |observations|
  {
    seq(|observations|, j requires 0 <= j < |observations| => ObservationRecord(ctx, dims, observations[j]))
  }

  /** The records of one entry of the series data: its key names the dimension indexes. */
  function EntryRecords(ctx: Context, entry: (string, Json)): (r: Result<seq<Json>>)
    ensures r.Ok? ==> |r.value| == |ObservationsOf(entry.1)|
  {
    match ExtractedDims(ctx.seriesDims, Split(entry.0, ':'))
    case Err(e) => Err(e)
    case Ok(dims) => Ok(SeriesRecords(ctx, dims, ObservationsOf(entry.1)))
  }

  /** The number of observations in a run of series. */
  function ObservationCount(series: seq<(string, Json)>): nat {
    if series == [] then 0 else ObservationCount(series[..|series| - 1]) + |ObservationsOf(series[|series| - 1].1)|
  }

  /** The records of a run of series, series by series. */
  function RecordsOf(ctx: Context, series: seq<(string, Json)>): (r: Result<seq<Json>>)
    ensures r.Ok? ==> |r.value| == ObservationCount(series)
  {
    if series == [] then Ok([])
    else
      match RecordsOf(ctx, series[..|series| - 1])
      case Err(e) => Err(e)
      case Ok(rs) =>
        match EntryRecords(ctx, series[|series| - 1])
        case Err(e) => Err(e)
        case Ok(more) => Ok(rs + more)
  }

  /** One more series: its records follow those before it, or its error is the result. */
  lemma RecordsStep(ctx: Context, series: seq<(string, Json)>, i: nat)
    requires i < |series|
    requires RecordsOf(ctx, series[..i]).Ok?
    ensures RecordsOf(ctx, series[..i + 1]) ==
      match EntryRecords(ctx, series[i])
      case Err(e) => Err(e)
      case Ok(more) => Ok(RecordsOf(ctx, series[..i]).value + more)
  {
    assert series[..i + 1][..i] == series[..i];
  }

  /** Once a series raises, decoding raises with that error whatever follows. */
  lemma {:induction false} RecordsErr(ctx: Context, series: seq<(string, Json)>, i: nat)
    requires i <= |series|
    requires RecordsOf(ctx, series[..i]).Err?
    ensures RecordsOf(ctx, series) == RecordsOf(ctx, series[..i])
  {
    if i < |series| {
      var init := series[..|series| - 1];
      assert init[..i] == series[..i];
      RecordsErr(ctx, init, i);
    } else {
      assert series[..i] == series;
    }
  }

  /** `build_records(payload, ...)` as a value. */
  function OecdRecords(payload: Json, d: OecdDefaults, parseFloat: string -> Option<real>): Result<seq<Json>> {
    RecordsOf(ContextOf(payload, d, parseFloat), SeriesData(payload))
  }

  /** `block` sits in `rs` from position `lo` on. */
  predicate Placed(rs: seq<Json>, lo: nat, block: seq<Json>) {
    lo + |block| <= |rs| && rs[lo..lo + |block|] == block
  }

  /**
   * One record per (series, observation) pair, series by series: the records of the
   * `i`-th series sit right after those of the series before it.
   */
  lemma {:induction false} RecordsLayout(ctx: Context, series: seq<(string, Json)>, i: nat)
    requires i < |series|
    requires RecordsOf(ctx, series).Ok?
    decreases |series|, 1
    ensures EntryRecords(ctx, series[i]).Ok?
    ensures Placed(RecordsOf(ctx, series).value, ObservationCount(series[..i]), EntryRecords(ctx, series[i]).value)
  {
    var init := series[..|series| - 1];
    assert series[..|series| - 1 + 1] == series;
    RecordsStep(ctx, series, |series| - 1);
    if i < |series| - 1 {
      LayoutEarlier(ctx, series, i);
    } else {
      var prev := RecordsOf(ctx, init).value;
      assert series[..i] == init;
      SliceRight(prev, EntryRecords(ctx, series[i]).value);
    }
  }

  lemma {:induction false} LayoutEarlier(ctx: Context, series: seq<(string, Json)>, i: nat)
    requires i < |series| - 1
    requires RecordsOf(ctx, series).Ok?
    requires RecordsOf(ctx, series[..|series| - 1]).Ok?
    requires RecordsOf(ctx, series).value == RecordsOf(ctx, series[..|series| - 1]).value + EntryRecords(ctx, series[|series| - 1]).value
    ensures EntryRecords(ctx, series[i]).Ok?
    ensures Placed(RecordsOf(ctx, series).value, ObservationCount(series[..i]), EntryRecords(ctx, series[i]).value)
    decreases |series|, 0
  {
    var init := series[..|series| - 1];
    RecordsLayout(ctx, init, i);
    assert init[..i] == series[..i] && init[i] == series[i];
    var lo := ObservationCount(series[..i]);
    SliceLeft(RecordsOf(ctx, init).value, EntryRecords(ctx, series[|series| - 1]).value, lo, lo + |EntryRecords(ctx, series[i]).value|);
  }

  lemma SliceLeft<T>(a: seq<T>, b: seq<T>, lo: nat, hi: nat)
    requires lo <= hi <= |a|
    ensures (a + b)[lo..hi] == a[lo..hi]
  {
  }

  lemma SliceRight<T>(a: seq<T>, b: seq<T>)
    ensures (a + b)[|a|..|a| + |b|] == b
  {
  }

  /** Each decoded record is the record of some observation, so it has the stored keys. */
  lemma {:induction false} RecordsStorable(ctx: Context, series: seq<(string, Json)>)
    requires RecordsOf(ctx, series).Ok?
    ensures OecdRows(RecordsOf(ctx, series).value).Ok?
  {
    var rs := RecordsOf(ctx, series).value;
    if series != [] {
      var init := series[..|series| - 1];
      var entry := series[|series| - 1];
      RecordsStorable(ctx, init);
      var prev := RecordsOf(ctx, init).value;
      var more := EntryRecords(ctx, entry).value;
      var dims := ExtractedDims(ctx.seriesDims, Split(entry.0, ':')).value;
      var obs := ObservationsOf(entry.1);
      assert rs == prev + more;
      forall k | 0 <= k < |rs| ensures OecdRowOf(rs[k]).Ok? {
        if k < |prev| {
          assert rs[k] == prev[k];
        } else {
          var j := k - |prev|;
          assert rs[k] == ObservationRecord(ctx, dims, obs[j]);
          RecordStorable(ctx.defaults, dims, PeriodLabel(ctx.timeMap, obs[j].0), obs[j].1, ctx.parseFloat);
        }
      }
    }
  }

  /** `build_records(payload, ...)`: one pass over the series, one inner pass over their observations. */
  method BuildRecords(payload: Json, d: OecdDefaults, parseFloat: string -> Option<real>) returns (r: Result<seq<Json>>)
    ensures r == OecdRecords(payload, d, parseFloat)
  {
    var ctx := ContextOf(payload, d, parseFloat);
    r := BuildSeriesRecords(ctx, SeriesData(payload));
  }

  /** The outer loop of `build_records` over the series data, in order. */
  method BuildSeriesRecords(ctx: Context, seriesData: seq<(string, Json)>) returns (r: Result<seq<Json>>)
    ensures r == RecordsOf(ctx, seriesData)
  {
    var records: seq<Json> := [];
    var i := 0;
    while i < |seriesData|
      invariant 0 <= i <= |seriesData|
      invariant RecordsOf(ctx, seriesData[..i]) == Ok(records)
    {
      RecordsStep(ctx, seriesData, i);
      var more := BuildEntryRecords(ctx, seriesData[i]);
      if more.Err? {
        RecordsErr(ctx, seriesData, i + 1);
        return Err(more.error);
      }
      records := records + more.value;
      i := i + 1;
    }
    assert seriesData[..i] == seriesData;
    r := Ok(records);
  }

  /** The body of the outer loop of `build_records`: resolve the series key, then walk the observations. */
  method BuildEntryRecords(ctx: Context, entry: (string, Json)) returns (r: Result<seq<Json>>)
    ensures r == EntryRecords(ctx, entry)
  {
    var resolved := ExtractDimensionValues(ctx.seriesDims, Split(entry.0, ':'));
    if resolved.Err? {
      return Err(resolved.error);
    }
    var more := AppendObservations(ctx, resolved.value, ObservationsOf(entry.1));
    r := Ok(more);
  }

  /** The inner loop of `build_records` over one series' observations. */
  method AppendObservations(ctx: Context, dims: Json, observations: seq<(string, Json)>) returns (records: seq<Json>)
    ensures records == SeriesRecords(ctx, dims, observations)
  {
    records := [];
    var j := 0;
    while j < |observations|
      invariant 0 <= j <= |observations|
      invariant records == SeriesRecords(ctx, dims, observations)[..j]
    {
      records := records + [ObservationRecord(ctx, dims, observations[j])];
      j := j + 1;
    }
  }

  // ---------------------------------------------------------------------------------
  // Fetching and storing

  /** The resolved parameters of one OECD ingestion. */
  datatype OecdParams = OecdParams(
    dataset: string, location: string, subject: string, measure: string, frequency: string,
    timeWindow: Option<string>, unit: Option<string>)

  function DefaultsOf(p: OecdParams): OecdDefaults {
    OecdDefaults(p.dataset, p.location, p.subject, p.measure, p.frequency, p.unit)
  }

  function RequestOf(p: OecdParams): HttpRequest {
    SeriesRequest(p.dataset, SeriesKey(p.location, p.subject, p.measure, p.frequency), p.timeWindow)
  }

  /**
   * `fetch_and_store(...)`. `fetch` stands for the HTTP call and returns the decoded
   * response. The records decoded from it are upserted; the count is the number of
   * records. A key that does not decode, or a page of the batch that hits one conflict
   * key twice, raises before anything is written.
   */
  method FetchAndStore(tables: ObservationTables, p: OecdParams, fetch: HttpRequest -> Json, parseFloat: string -> Option<real>)
    returns (r: Result<nat>)
    requires tables.Valid()
    modifies tables
    ensures tables.Valid() && tables.ons == old(tables.ons)
    ensures var recs := OecdRecords(fetch(RequestOf(p)), DefaultsOf(p), parseFloat);
      (recs.Err? ==> r == Err(recs.error) && tables.oecd == old(tables.oecd))
      && (recs.Ok? ==> OecdRows(recs.value).Ok?)
      && (recs.Ok? && OecdRows(recs.value).Ok? && !PagesDistinct(OecdRows(recs.value).value, OecdKeyOf) ==>
            r == Err(CardinalityError) && tables.oecd == old(tables.oecd))
      && (recs.Ok? && OecdRows(recs.value).Ok? && PagesDistinct(OecdRows(recs.value).value, OecdKeyOf) ==>
            r == Ok(|recs.value|)
            && tables.oecd == Upsert(old(tables.oecd), OecdRows(recs.value).value, OecdKeyOf, OecdStoreConflict))
  {
    var seriesKey := SeriesKey(p.location, p.subject, p.measure, p.frequency);
    var payload := fetch(SeriesRequest(p.dataset, seriesKey, p.timeWindow));
    var records := BuildRecords(payload, DefaultsOf(p), parseFloat);
    if records.Err? {
      return Err(records.error);
    }
    RecordsStorable(ContextOf(payload, DefaultsOf(p), parseFloat), SeriesData(payload));
    r := tables.StoreOecd(records.value);
  }

  // ---------------------------------------------------------------------------------
  // Command parameters

  /** The command-line arguments; `parse_args` guarantees the four manual ones without `--config`. */
  datatype OecdArgs = OecdArgs(
    config: Option<string>, dataset: Option<string>, location: Option<string>, subject: Option<string>,
    measure: Option<string>, frequency: Option<string>, timeWindow: Option<string>, unit: Option<string>)

  const DefaultLocation: string := "GBR"

  function NoConfigError(slug: string): string {
    "No enabled economic_data_sources entry found for slug '" + slug + "' with provider OECD."
  }

  function IncompleteConfigError(slug: string): string {
    "Configuration '" + slug + "' is missing dataset/subject/measure/frequency."
  }

  /** The default location has no surrounding whitespace, so stripping keeps it. */
  lemma DefaultLocationStripped()
    ensures Strip(DefaultLocation) == DefaultLocation
  {
    assert !IsSpace(DefaultLocation[0]) && !IsSpace(DefaultLocation[2]);
    StripNone(DefaultLocation);
  }

  /**
   * `resolve_parameters(args)`. With `--config`: the row must exist for provider OECD;
   * the `--location` argument wins over the row's location (default GBR), the row's
   * subject, measure and frequency win over the arguments, and all four identifiers must
   * be non-empty after stripping. Without it the arguments are stripped and used.
   */
  function ResolveParameters(args: OecdArgs, table: seq<SourceConfig>): (r: Result<OecdParams>)
    requires !Present(args.config) ==>
      args.dataset.Some? && args.subject.Some? && args.measure.Some? && args.frequency.Some?
    ensures Present(args.config) && GetDataSourceConfig(table, args.config.value, Some("OECD")).None? ==>
      r == Err(NoConfigError(args.config.value))
    ensures Present(args.config) && GetDataSourceConfig(table, args.config.value, Some("OECD")).Some? ==>
      var c := GetDataSourceConfig(table, args.config.value, Some("OECD")).value;
      (r.Err? <==> Strip(Or(OrOpt(c.datasetCode, c.datasetId), "")) == "" || Strip(Or(OrOpt(c.subject, args.subject), "")) == ""
                   || Strip(Or(OrOpt(c.measure, args.measure), "")) == "" || Strip(Or(OrOpt(c.frequency, args.frequency), "")) == "")
      && (r.Err? ==> r.error == IncompleteConfigError(args.config.value))
      && (r.Ok? ==> r.value.dataset != "" && r.value.subject != "" && r.value.measure != "" && r.value.frequency != "")
      && (r.Ok? && Present(args.location) ==> r.value.location == Strip(args.location.value))
      && (r.Ok? && !Present(args.location) && Present(c.location) ==> r.value.location == Strip(c.location.value))
      && (r.Ok? && Present(c.subject) ==> r.value.subject == Strip(c.subject.value))
      && (r.Ok? && Present(c.measure) ==> r.value.measure == Strip(c.measure.value))
      && (r.Ok? && Present(c.frequency) ==> r.value.frequency == Strip(c.frequency.value))
      && (r.Ok? ==> r.value.dataset == Strip(Or(OrOpt(c.datasetCode, c.datasetId), "")))
      && (r.Ok? && !Present(args.location) && !Present(c.location) ==> r.value.location == DefaultLocation)
      && (r.Ok? && !Present(c.subject) ==> r.value.subject == Strip(Or(args.subject, "")))
      && (r.Ok? && !Present(c.measure) ==> r.value.measure == Strip(Or(args.measure, "")))
      && (r.Ok? && !Present(c.frequency) ==> r.value.frequency == Strip(Or(args.frequency, "")))
      && (r.Ok? ==> r.value.timeWindow == OrOpt(args.timeWindow, c.timeFilter) && r.value.unit == OrOpt(args.unit, c.unit))
    ensures !Present(args.config) ==>
      r == Ok(OecdParams(Strip(args.dataset.value), Strip(Or(args.location, DefaultLocation)), Strip(args.subject.value),
                         Strip(args.measure.value), Strip(args.frequency.value), args.timeWindow, args.unit))
    ensures !Present(args.config) && !Present(args.location) ==> r.Ok? && r.value.location == DefaultLocation
  {
    if Present(args.config) then
      match GetDataSourceConfig(table, args.config.value, Some("OECD"))
      case None => Err(NoConfigError(args.config.value))
      case Some(c) =>
        var dataset := Strip(Or(OrOpt(c.datasetCode, c.datasetId), ""));
        var location := Strip(Or(OrOpt(args.location, c.location), DefaultLocation));
        DefaultLocationStripped();
        var subject := Strip(Or(OrOpt(c.subject, args.subject), ""));
        var measure := Strip(Or(OrOpt(c.measure, args.measure), ""));
        var frequency := Strip(Or(OrOpt(c.frequency, args.frequency), ""));
        if dataset == "" || subject == "" || measure == "" || frequency == "" then
          Err(IncompleteConfigError(args.config.value))
        else
          Ok(OecdParams(dataset, location, subject, measure, frequency, OrOpt(args.timeWindow, c.timeFilter), OrOpt(args.unit, c.unit)))
    else
      DefaultLocationStripped();
      Ok(OecdParams(Strip(args.dataset.value), Strip(Or(args.location, DefaultLocation)), Strip(args.subject.value),
                    Strip(args.measure.value), Strip(args.frequency.value), args.timeWindow, args.unit))
  }
}
