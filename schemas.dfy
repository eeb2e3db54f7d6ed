/**
 * Request and option records of the briefing API, with their defaults and the range
 * constraint on `lookback_periods` that validation enforces.
 */
module Schemas {
  import opened Base

  /** Row identifiers (database-generated UUIDs) are modelled as distinct numbers. */
  type Id = nat

  datatype SelectedSeries = SelectedSeries(
    source: string,
    sourceSeriesId: string,
    datasetId: Option<string>,
    alias: Option<string>)

  datatype BriefingOptions = BriefingOptions(
    asOf: Option<string>,
    lookbackPeriods: int,
    includeOecd: bool,
    tone: string,
    length: string)

  const MinLookback: int := 1
  const MaxLookback: int := 240
  const DefaultLookback: int := 24

  /** The constraint `1 <= lookback_periods <= 240` that validation enforces. */
  predicate ValidOptions(o: BriefingOptions) {
    MinLookback <= o.lookbackPeriods <= MaxLookback
  }

  /**
   * The fields a client sent for a `BriefingOptions` object: `None` means the field was
   * omitted. `asOf` may be sent as an explicit null, hence the nested option.
   */
  datatype OptionsInput = OptionsInput(
    asOf: Option<Option<string>>,
    lookbackPeriods: Option<int>,
    includeOecd: Option<bool>,
    tone: Option<string>,
    length: Option<string>)

  const NoOptions := OptionsInput(None, None, None, None, None)

  /** Validating a `BriefingOptions` payload: defaults fill omitted fields. */
  function MakeOptions(input: OptionsInput): (r: Result<BriefingOptions>)
    ensures r.Ok? <==> (input.lookbackPeriods.None? || MinLookback <= input.lookbackPeriods.value <= MaxLookback)
    ensures r.Ok? ==> ValidOptions(r.value)
    ensures r.Ok? ==> r.value.asOf == (if input.asOf.Some? then input.asOf.value else Some("latest"))
    ensures r.Ok? ==> r.value.lookbackPeriods == (if input.lookbackPeriods.Some? then input.lookbackPeriods.value else DefaultLookback)
    ensures r.Ok? ==> r.value.includeOecd == (input.includeOecd == Some(true))
    ensures r.Ok? ==> r.value.tone == (if input.tone.Some? then input.tone.value else "ministerial")
    ensures r.Ok? ==> r.value.length == (if input.length.Some? then input.length.value else "one_page")
  {
    var lookback := match input.lookbackPeriods case Some(n) => n case None => DefaultLookback;
    if !(MinLookback <= lookback <= MaxLookback) then
      Err("lookback_periods must be between 1 and 240")
    else
      Ok(BriefingOptions(
        match input.asOf case Some(a) => a case None => Some("latest"),
        lookback,
        match input.includeOecd case Some(b) => b case None => false,
        match input.tone case Some(t) => t case None => "ministerial",
        match input.length case Some(l) => l case None => "one_page"))
  }

  /** `BriefingOptions()` with every field defaulted. */
  function DefaultOptions(): (o: BriefingOptions)
    ensures ValidOptions(o)
    ensures o == BriefingOptions(Some("latest"), 24, false, "ministerial", "one_page")
  {
    MakeOptions(NoOptions).value
  }

  /** Validating a selected series: both identifiers are required, the rest optional. */
  function MakeSelectedSeries(
    source: Option<string>, sourceSeriesId: Option<string>,
    datasetId: Option<string>, alias: Option<string>): (r: Result<SelectedSeries>)
    ensures r.Ok? <==> source.Some? && sourceSeriesId.Some?
    ensures r.Ok? ==> r.value == SelectedSeries(source.value, sourceSeriesId.value, datasetId, alias)
  {
    if source.None? then Err("source: field required")
    else if sourceSeriesId.None? then Err("source_series_id: field required")
    else Ok(SelectedSeries(source.value, sourceSeriesId.value, datasetId, alias))
  }

  datatype CreateBriefingRequest = CreateBriefingRequest(
    topic: string,
    userRequest: string,
    selectedSeries: seq<SelectedSeries>,
    options: BriefingOptions)

  /** `CreateBriefingRequest(...)`: omitted options become a default `BriefingOptions`. */
  function MakeCreateRequest(
    topic: string, userRequest: string, selected: seq<SelectedSeries>,
    options: Option<BriefingOptions>): (r: CreateBriefingRequest)
    ensures options.None? ==> r.options == DefaultOptions() && ValidOptions(r.options)
    ensures options.Some? ==> r.options == options.value
    ensures r.topic == topic && r.userRequest == userRequest && r.selectedSeries == selected
  {
    CreateBriefingRequest(topic, userRequest, selected,
      match options case Some(o) => o case None => DefaultOptions())
  }

  /**
   * A chat edit. An absent target version (or, in the source, an empty one) means "edit
   * the latest version".
   */
  datatype ChatRequest = ChatRequest(message: string, targetVersionId: Option<Id>)

  datatype CommentCreateRequest = CommentCreateRequest(versionId: Id, anchor: string, commentText: string)

  /** A briefing as listed to clients; it has no version until the first one is written. */
  datatype BriefingSummary = BriefingSummary(
    id: Id, title: string, topic: string, status: string, latestVersionId: Option<Id>)

  // ---------------------------------------------------------------------------------
  // `.dict()` / `model_dump()`

  function OptStrJson(o: Option<string>): Json {
    match o
    case Some(s) => JStr(s)
    case None => JNull
  }

  function OptionsJson(o: BriefingOptions): Json {
    JObj([("as_of", OptStrJson(o.asOf)), ("lookback_periods", JNum(o.lookbackPeriods as real)),
          ("include_oecd", JBool(o.includeOecd)), ("tone", JStr(o.tone)), ("length", JStr(o.length))])
  }

  function SelectedJson(s: SelectedSeries): Json {
    JObj([("source", JStr(s.source)), ("source_series_id", JStr(s.sourceSeriesId)),
          ("dataset_id", OptStrJson(s.datasetId)), ("alias", OptStrJson(s.alias))])
  }

  function RequestJson(r: CreateBriefingRequest): Json {
    JObj([("topic", JStr(r.topic)), ("user_request", JStr(r.userRequest)),
          ("selected_series", JArr(seq(|r.selectedSeries|, i requires 0 <= i < |r.selectedSeries| => SelectedJson(r.selectedSeries[i])))),
          ("options", OptionsJson(r.options))])
  }
}
