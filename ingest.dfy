/**
 * The ingestion script: which configured sources to ingest, how one configuration row is
 * validated and dispatched to its provider's fetcher, and the per-source results.
 */
module Ingest {
  import opened Base
  import opened EconomicData
  import OecdFetcher
  import OnsFetcher

  // ---------------------------------------------------------------------------------
  // Choosing the configurations

  /** `{slug.lower() for slug in slugs}`, as a sequence. */
  function Wanted(slugs: seq<string>): (w: seq<string>)
    ensures |w| == |slugs|
    ensures forall i :: 0 <= i < |slugs| ==> w[i] == Lower(slugs[i])
  {
    seq(|slugs|, i requires 0 <= i < |slugs| => Lower(slugs[i]))
  }

  /**
   * `_filter_configs(configs, slugs)`: everything when no slugs are given, otherwise the
   * configurations whose slug is one of them ignoring case, in their original order.
   */
  function FilterConfigs(configs: seq<SourceConfig>, slugs: seq<string>): (r: seq<SourceConfig>)
    ensures slugs == [] ==> r == configs
    ensures slugs != [] ==> forall c :: c in r <==> c in configs && Lower(c.slug) in Wanted(slugs)
    ensures slugs != [] ==> r == Filter(configs, (c: SourceConfig) => Lower(c.slug) in Wanted(slugs))
  {
    if slugs == [] then configs
    else Filter(configs, (c: SourceConfig) => Lower(c.slug) in Wanted(slugs))
  }

  /**
   * The chosen configurations are the listed ones read at strictly increasing positions,
   * exactly those whose slug is wanted (all of them without slugs).
   */
  lemma FilterConfigsOrder(configs: seq<SourceConfig>, slugs: seq<string>)
    ensures exists idx: seq<nat> :: (ReadAtIncreasing(FilterConfigs(configs, slugs), configs, idx)
      && forall j :: 0 <= j < |configs| ==> (j in idx <==> slugs == [] || Lower(configs[j].slug) in Wanted(slugs)))
  {
    var r := FilterConfigs(configs, slugs);
    if slugs == [] {
      var idx := seq(|configs|, i requires 0 <= i < |configs| => i);
      forall j | 0 <= j < |configs| ensures j in idx {
        assert idx[j] == j;
      }
      assert ReadAtIncreasing(r, configs, idx);
    } else {
      var idx := FilterPositions(configs, (c: SourceConfig) => Lower(c.slug) in Wanted(slugs));
      assert ReadAtIncreasing(r, configs, idx);
    }
  }

  /** A slug matches whatever case it is given in. */
  lemma FilterConfigsIgnoresCase(configs: seq<SourceConfig>, slugs: seq<string>, c: SourceConfig, i: nat)
    requires c in configs && i < |slugs| && Lower(c.slug) == Lower(slugs[i])
    ensures c in FilterConfigs(configs, slugs)
  {
    assert Lower(c.slug) == Wanted(slugs)[i];
  }

  // ---------------------------------------------------------------------------------
  // One configuration

  /** What a validated configuration row is handed to. */
  datatype Plan =
    | OnsPlan(ons: OnsFetcher.OnsParams)
    | OecdPlan(oecd: OecdFetcher.OecdParams)

  function OnsIncomplete(slug: string): string {
    "Configuration '" + slug + "' missing dataset/series information."
  }

  function OecdIncomplete(slug: string): string {
    "Configuration '" + slug + "' missing dataset/subject/measure/frequency."
  }

  function UnknownProvider(provider: string, slug: string): string {
    "Unknown provider '" + provider + "' for configuration '" + slug + "'."
  }

  /**
   * The validation half of `run_ingestion(config, time_override)`: the provider is
   * uppercased; ONS needs a dataset (`dataset_id`, else `dataset_code`) and a series, OECD
   * a dataset (`dataset_code`, else `dataset_id`), subject, measure and frequency, all
   * non-empty after stripping, with the location defaulting to GBR; the override wins over
   * the row's time filter.
   */
  function Dispatch(c: SourceConfig, timeOverride: Option<string>): (r: Result<Plan>)
    ensures Upper(c.provider) != "ONS" && Upper(c.provider) != "OECD" ==> r == Err(UnknownProvider(Upper(c.provider), c.slug))
    ensures Upper(c.provider) == "ONS" ==>
      var dataset := Strip(Or(OrOpt(c.datasetId, c.datasetCode), ""));
      var series := Strip(Or(c.seriesId, ""));
      (dataset == "" || series == "" ==> r == Err(OnsIncomplete(c.slug)))
      && (dataset != "" && series != "" ==> r == Ok(OnsPlan(OnsFetcher.OnsParams(dataset, series, OrOpt(timeOverride, c.timeFilter)))))
    ensures Upper(c.provider) == "OECD" ==>
      var dataset := Strip(Or(OrOpt(c.datasetCode, c.datasetId), ""));
      var subject := Strip(Or(c.subject, ""));
      var measure := Strip(Or(c.measure, ""));
      var frequency := Strip(Or(c.frequency, ""));
      (r.Err? <==> dataset == "" || subject == "" || measure == "" || frequency == "")
      && (r.Err? ==> r.error == OecdIncomplete(c.slug))
      && (r.Ok? ==> r.value == OecdPlan(OecdFetcher.OecdParams(dataset, Strip(Or(c.location, "GBR")), subject, measure, frequency,
                                                             OrOpt(timeOverride, c.timeFilter), c.unit)))
    ensures r.Ok? && r.value.OecdPlan? ==>
      var q := r.value.oecd;
      q.dataset != "" && q.subject != "" && q.measure != "" && q.frequency != ""
  {
    var provider := Upper(c.provider);
    if provider == "ONS" then
      var dataset := Strip(Or(OrOpt(c.datasetId, c.datasetCode), ""));
      var series := Strip(Or(c.seriesId, ""));
      if dataset == "" || series == "" then Err(OnsIncomplete(c.slug))
      else Ok(OnsPlan(OnsFetcher.OnsParams(dataset, series, OrOpt(timeOverride, c.timeFilter))))
    else if provider == "OECD" then
      var dataset := Strip(Or(OrOpt(c.datasetCode, c.datasetId), ""));
      var location := Strip(Or(c.location, "GBR"));
      var subject := Strip(Or(c.subject, ""));
      var measure := Strip(Or(c.measure, ""));
      var frequency := Strip(Or(c.frequency, ""));
      if dataset == "" || subject == "" || measure == "" || frequency == "" then Err(OecdIncomplete(c.slug))
      else Ok(OecdPlan(OecdFetcher.OecdParams(dataset, location, subject, measure, frequency, OrOpt(timeOverride, c.timeFilter), c.unit)))
    else
      Err(UnknownProvider(provider, c.slug))
  }

  /** The provider is matched ignoring case, so a lower-case `ons` row is an ONS row. */
  lemma DispatchIgnoresCase(c: SourceConfig, timeOverride: Option<string>)
    ensures Dispatch(c, timeOverride) == Dispatch(c.(provider := Upper(c.provider)), timeOverride)
  {
    UpperIdempotent(c.provider);
  }

  /**
   * The ONS branch passes `resource_path=` to a `fetch_and_store` that takes no such
   * argument, so it always raises this before fetching anything.
   */
  const ResourcePathError: string := "fetch_and_store() got an unexpected keyword argument 'resource_path'"

  /** What `run_ingestion` returns, or the message of what it raises. */
  function IngestOutcome(c: SourceConfig, timeOverride: Option<string>, fetch: OecdFetcher.HttpRequest -> Json,
                         parseFloat: string -> Option<real>): Result<nat>
  {
    match Dispatch(c, timeOverride)
    case Err(e) => Err(e)
    case Ok(OnsPlan(_)) => Err(ResourcePathError)
    case Ok(OecdPlan(p)) =>
      match OecdFetcher.OecdRecords(fetch(OecdFetcher.RequestOf(p)), OecdFetcher.DefaultsOf(p), parseFloat)
      case Err(e) => Err(e)
      case Ok(recs) =>
        match OecdRows(recs)
        case Err(e) => Err(e)
        case Ok(rows) => if PagesDistinct(rows, OecdKeyOf) then Ok(|recs|) else Err(CardinalityError)
  }

  /** The OECD table after `run_ingestion`: only a successful OECD ingestion writes; a failed one rolls back. */
  function OecdAfter(oecd: map<OecdKey, OecdRow>, c: SourceConfig, timeOverride: Option<string>,
                     fetch: OecdFetcher.HttpRequest -> Json, parseFloat: string -> Option<real>): map<OecdKey, OecdRow>
  {
    match Dispatch(c, timeOverride)
    case Ok(OecdPlan(p)) =>
      (match OecdFetcher.OecdRecords(fetch(OecdFetcher.RequestOf(p)), OecdFetcher.DefaultsOf(p), parseFloat)
       case Ok(recs) =>
         (match OecdRows(recs)
          case Ok(rows) => if PagesDistinct(rows, OecdKeyOf) then Upsert(oecd, rows, OecdKeyOf, OecdStoreConflict) else oecd
          case Err(_) => oecd)
       case Err(_) => oecd)
    case _ => oecd
  }

  /** An ONS row never ingests: it either fails validation or raises on the call. */
  lemma OnsNeverIngests(c: SourceConfig, timeOverride: Option<string>, fetch: OecdFetcher.HttpRequest -> Json,
                        parseFloat: string -> Option<real>, oecd: map<OecdKey, OecdRow>)
    requires Upper(c.provider) == "ONS"
    ensures IngestOutcome(c, timeOverride, fetch, parseFloat).Err?
    ensures OecdAfter(oecd, c, timeOverride, fetch, parseFloat) == oecd
  {
  }

  /** A row whose provider is neither ONS nor OECD fails with the unknown-provider message. */
  lemma UnknownProviderFails(c: SourceConfig, timeOverride: Option<string>, fetch: OecdFetcher.HttpRequest -> Json,
                             parseFloat: string -> Option<real>)
    requires Upper(c.provider) != "ONS" && Upper(c.provider) != "OECD"
    ensures IngestOutcome(c, timeOverride, fetch, parseFloat) == Err(UnknownProvider(Upper(c.provider), c.slug))
  {
  }

  /**
   * `run_ingestion(config, time_override)`: validate, then hand the row to its fetcher.
   * `fetch` stands for the OECD HTTP call.
   */
  method RunIngestion(tables: ObservationTables, c: SourceConfig, timeOverride: Option<string>,
                      fetch: OecdFetcher.HttpRequest -> Json, parseFloat: string -> Option<real>)
    returns (r: Result<nat>)
    requires tables.Valid()
    modifies tables
    ensures tables.Valid() && tables.ons == old(tables.ons)
    ensures r == IngestOutcome(c, timeOverride, fetch, parseFloat)
    ensures tables.oecd == OecdAfter(old(tables.oecd), c, timeOverride, fetch, parseFloat)
  {
    var plan := Dispatch(c, timeOverride);
    if plan.Err? {
      return Err(plan.error);
    }
    if plan.value.OnsPlan? {
      return Err(ResourcePathError);
    }
    r := OecdFetcher.FetchAndStore(tables, plan.value.oecd, fetch, parseFloat);
  }

  // ---------------------------------------------------------------------------------
  // All configurations

  /** One entry of the list `ingest_sources` returns. */
  datatype IngestResult =
    | Skipped(provider: Option<string>, slugs: seq<string>)
    | DryRun(slug: string, providerName: string, description: Option<string>)
    | Success(slug: string, providerName: string, inserted: nat)
    | Failure(slug: string, providerName: string, error: string)

  /** The result recorded for one configuration when not in dry-run mode. */
  function ResultOf(c: SourceConfig, timeOverride: Option<string>, fetch: OecdFetcher.HttpRequest -> Json,
                    parseFloat: string -> Option<real>): IngestResult
  {
    match IngestOutcome(c, timeOverride, fetch, parseFloat)
    case Ok(n) => Success(c.slug, c.provider, n)
    case Err(e) => Failure(c.slug, c.provider, e)
  }

  /** The OECD table after ingesting the configurations one after the other. */
  function OecdAfterAll(oecd: map<OecdKey, OecdRow>, configs: seq<SourceConfig>, timeOverride: Option<string>,
                        fetch: OecdFetcher.HttpRequest -> Json, parseFloat: string -> Option<real>): map<OecdKey, OecdRow>
  {
    if configs == [] then oecd
    else OecdAfter(OecdAfterAll(oecd, configs[..|configs| - 1], timeOverride, fetch, parseFloat),
                   configs[|configs| - 1], timeOverride, fetch, parseFloat)
  }

  /** The configurations `ingest_sources` works on. */
  function Selected(table: seq<SourceConfig>, provider: Option<string>, slugs: seq<string>): seq<SourceConfig> {
    FilterConfigs(ListDataSourceConfigs(table, provider), slugs)
  }

  /** The result recorded for one configuration: a dry run only describes it. */
  function EntryResult(c: SourceConfig, dryRun: bool, timeOverride: Option<string>, fetch: OecdFetcher.HttpRequest -> Json,
                       parseFloat: string -> Option<real>): IngestResult
  {
    if dryRun then DryRun(c.slug, c.provider, c.description) else ResultOf(c, timeOverride, fetch, parseFloat)
  }

  lemma OecdAfterAllStep(oecd: map<OecdKey, OecdRow>, configs: seq<SourceConfig>, i: nat, timeOverride: Option<string>,
                         fetch: OecdFetcher.HttpRequest -> Json, parseFloat: string -> Option<real>)
    requires i < |configs|
    ensures OecdAfterAll(oecd, configs[..i + 1], timeOverride, fetch, parseFloat) ==
      OecdAfter(OecdAfterAll(oecd, configs[..i], timeOverride, fetch, parseFloat), configs[i], timeOverride, fetch, parseFloat)
  {
    assert configs[..i + 1][..i] == configs[..i];
  }

  /**
   * `ingest_sources(provider, slugs, time_override, dry_run)`. No matching configuration
   * gives the single skipped result; a dry run gives one dry-run result per configuration
   * and writes nothing; otherwise each configuration is ingested in order and gets its own
   * success or error result, an error not stopping the ones after it.
   */
  method IngestSources(tables: ObservationTables, table: seq<SourceConfig>, provider: Option<string>, slugs: seq<string>,
                       timeOverride: Option<string>, dryRun: bool,
                       fetch: OecdFetcher.HttpRequest -> Json, parseFloat: string -> Option<real>)
    returns (results: seq<IngestResult>)
    requires tables.Valid()
    modifies tables
    ensures tables.Valid() && tables.ons == old(tables.ons)
    ensures var configs := Selected(table, provider, slugs);
      (configs == [] ==> results == [Skipped(provider, slugs)] && tables.oecd == old(tables.oecd))
      && (configs != [] ==>
            (|results| == |configs|
             && (forall k :: 0 <= k < |configs| ==> results[k] == EntryResult(configs[k], dryRun, timeOverride, fetch, parseFloat))
             && tables.oecd == if dryRun then old(tables.oecd) else OecdAfterAll(old(tables.oecd), configs, timeOverride, fetch, parseFloat)))
  {
    var configs := Selected(table, provider, slugs);
    if configs == [] {
      results := [Skipped(provider, slugs)];
      return;
    }
    results := IngestConfigs(tables, configs, timeOverride, dryRun, fetch, parseFloat);
  }

  /** The loop of `ingest_sources` over a non-empty list of configurations. */
  method IngestConfigs(tables: ObservationTables, configs: seq<SourceConfig>, timeOverride: Option<string>, dryRun: bool,
                       fetch: OecdFetcher.HttpRequest -> Json, parseFloat: string -> Option<real>)
    returns (results: seq<IngestResult>)
    requires tables.Valid()
    modifies tables
    ensures tables.Valid() && tables.ons == old(tables.ons)
    ensures |results| == |configs|
    ensures forall k :: 0 <= k < |configs| ==> results[k] == EntryResult(configs[k], dryRun, timeOverride, fetch, parseFloat)
    ensures tables.oecd == if dryRun then old(tables.oecd) else OecdAfterAll(old(tables.oecd), configs, timeOverride, fetch, parseFloat)
  {
    results := [];
    var i := 0;
    while i < |configs|
      invariant 0 <= i <= |configs| && |results| == i
      invariant tables.Valid() && tables.ons == old(tables.ons)
      invariant forall k :: 0 <= k < i ==> results[k] == EntryResult(configs[k], dryRun, timeOverride, fetch, parseFloat)
      invariant tables.oecd == if dryRun then old(tables.oecd) else OecdAfterAll(old(tables.oecd), configs[..i], timeOverride, fetch, parseFloat)
    {
      var cfg := configs[i];
      if dryRun {
        results := results + [DryRun(cfg.slug, cfg.provider, cfg.description)];
        i := i + 1;
        continue;
      }
      OecdAfterAllStep(old(tables.oecd), configs, i, timeOverride, fetch, parseFloat);
      var res := IngestOne(tables, cfg, timeOverride, fetch, parseFloat);
      results := results + [res];
      i := i + 1;
    }
    assert configs[..i] == configs;
  }

  /** The body of the loop in `ingest_sources` outside a dry run: an error becomes an error result. */
  method IngestOne(tables: ObservationTables, c: SourceConfig, timeOverride: Option<string>,
                   fetch: OecdFetcher.HttpRequest -> Json, parseFloat: string -> Option<real>)
    returns (res: IngestResult)
    requires tables.Valid()
    modifies tables
    ensures tables.Valid() && tables.ons == old(tables.ons)
    ensures res == ResultOf(c, timeOverride, fetch, parseFloat)
    ensures tables.oecd == OecdAfter(old(tables.oecd), c, timeOverride, fetch, parseFloat)
  {
    var outcome := RunIngestion(tables, c, timeOverride, fetch, parseFloat);
    match outcome {
      case Ok(inserted) => res := Success(c.slug, c.provider, inserted);
      case Err(e) => res := Failure(c.slug, c.provider, e);
    }
  }
}
