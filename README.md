# Briefing builder backend, modelled in Dafny

This project models the deterministic core of the briefing builder's Python backend, the
service that turns selected UK economic time series into an analyst briefing and keeps that
briefing as a chain of versions edited through chat. It covers four groups of code.

- **Data-pack assembly** (`DataPack`). Each selected series is looked up and fetched. Its
  observations are trimmed to the look-back window. The pack then derives the latest value,
  the month-on-month and year-on-year changes, the rolling means, the minimum and the maximum.
  Each series is graded green, amber or red from its freshness, missing-value and length
  checks, and the pack's status is the worst of those grades.
- **Versions and orchestration** (`BriefingRepo`, `BriefingService`, `Llm`, `Schemas`).
  - The repository is a class holding the briefing, version, chat and comment tables as
    sequences. Its methods append rows and move the `latest_version_id` pointer.
  - The service's `create_briefing` and `handle_chat` are methods. Each one writes a version,
    moves the pointer and records the user's and the assistant's chat messages.
  - The model wrapper is a class with a memo cache and a deterministic fallback document.
  - The request schemas are validating constructors that fill in the defaults.
- **Series store and lookup** (`EconomicData`, `SeriesRepo`, `SeriesService`, `Sql`).
  - The observation tables are maps keyed by the `ON CONFLICT` columns. Storing records is a
    keyed upsert over those maps.
  - Parameterised queries are sequences of text fragments and placeholders, so that
    placeholders can be counted against parameters.
  - Configuration lookups are filters over the `economic_data_sources` table.
- **Ingestion and seeding** (`OecdFetcher`, `OnsFetcher`, `Ingest`, `Synthetic`, `Seed`,
  `Calendar`).
  - The OECD decoder reads SDMX-JSON data messages. The ONS decoder flattens the months,
    quarters and years groups of the ONS payload.
  - The ingestion driver filters the configurations and dispatches them to the fetchers.
  - The seeders walk back month by month from the current month.

`Base` holds the JSON value type: objects are ordered association lists, as Python dicts are.
It also holds Python's truthiness and `or`, and the string operations the code uses. `Sorting`
holds the stable sorts that stand for `sorted(...)` and `ORDER BY`.

Three kinds of input are parameters of the model. The current date is a `today`/`now`
parameter. Random draws are a `draw` function. The model's reply, `float()` on strings, and
period parsing are function parameters.

## Model

| member | source | states |
|---|---|---|
| `EconomicData.PrepareJson` | backend/src/economic_data_service.py:12-14 | a truthy value is stored as given; a missing or empty one as `{}` |
| `EconomicData.FirstMissing` | backend/src/economic_data_service.py:22-35 | no key is reported exactly when the record has every required key; a reported key is required and missing |
| `EconomicData.OnsRowOf` | backend/src/economic_data_service.py:22-35 | the row exists exactly when `dataset_id`, `series_id` and `period_label` are present, and each of its nine fields is the record's value under that key, the metadata prepared |
| `EconomicData.OecdRowOf` | backend/src/economic_data_service.py:68-81 | the row exists exactly when `dataset_code`, `location` and `period_label` are present, and each of its nine fields is the record's value under that key, the metadata prepared |
| `EconomicData.OnsRows` | backend/src/economic_data_service.py:22-35 | the batch is built exactly when every record is, one row per record in order |
| `EconomicData.OecdRows` | backend/src/economic_data_service.py:68-81 | the batch is built exactly when every record is, one row per record in order |
| `EconomicData.UpsertSpec` | backend/src/economic_data_service.py:40-57 | for a batch with distinct keys, the upsert adds exactly the batch's keys, stores each row merged with the row it displaces, and leaves every other row alone |
| `EconomicData.OnsStoreConflict` | backend/src/economic_data_service.py:44-53 | the conflict update keeps the `(series_id, period_label)` key; for an equal key the stored row becomes the incoming row |
| `EconomicData.OecdStoreConflict` | backend/src/economic_data_service.py:90-95 | the conflict update keeps the six-column key and replaces value, unit and metadata; for an equal key the stored row becomes the incoming row |
| `EconomicData.UpsertKeyed` | backend/src/economic_data_service.py:40-57 | whatever the batch, an upsert whose update keeps the key keeps every row stored under its own key |
| `EconomicData.UpsertKeys` | backend/src/economic_data_service.py:40-57 | whatever the batch, the upsert adds exactly the batch's keys and keeps every stored row whose key no row hits |
| `EconomicData.UpsertLastWins` | backend/src/economic_data_service.py:86-99 | rows applied one after the other, with an update that yields the incoming row: a row that no later row of the batch shares its key with is the one stored under it |
| `EconomicData.UpsertReplaces` | backend/src/economic_data_service.py:86-99 | when the update yields the incoming row, every row of the batch ends up stored as given |
| `EconomicData.OnsRowsDistinct` | backend/src/economic_data_service.py:22-44 | records with distinct conflict keys give rows with distinct conflict keys |
| `EconomicData.OecdRowsDistinct` | backend/src/economic_data_service.py:68-90 | records with distinct conflict keys give rows with distinct conflict keys |
| `EconomicData.OnsStoredAsGiven` | backend/src/economic_data_service.py:17-60 | storing ONS records keeps the table keyed, adds exactly their keys and leaves each record's row stored as built from it |
| `EconomicData.OecdStoredAsGiven` | backend/src/economic_data_service.py:63-102 | storing OECD records keeps the table keyed, adds exactly their keys and leaves each record's row stored as built from it |
| `EconomicData.ObservationTables.StoreOns` | backend/src/economic_data_service.py:17-60 | raises, writing nothing, exactly when a record lacks a required key or one page of 100 rows hits a conflict key twice (then with PostgreSQL's cardinality error); an empty batch writes nothing and returns 0; otherwise the table is the upsert of the rows in order and the count is the number of records; the OECD table is untouched |
| `EconomicData.ObservationTables.StoreOecd` | backend/src/economic_data_service.py:63-102 | the same for the OECD table, with the ONS table untouched |
| `EconomicData.GetDataSourceConfig` | backend/src/economic_data_service.py:105-121 | a result is an enabled row of the table with the slug (and the upper-cased provider when one is given); none exactly when no row matches |
| `EconomicData.GetDataSourceConfigUnique` | backend/src/economic_data_service.py:105-121 | with unique slugs the lookup returns the one matching row |
| `EconomicData.ListDataSourceConfigs` | backend/src/economic_data_service.py:124-141 | the listed rows are exactly the enabled rows (of the upper-cased provider, when given), ordered by slug, each as often as in the table |
| `DataPack.DetermineFrequency` | backend/src/services/data_pack_builder.py:30-31 | the configuration's own frequency when present, else the metadata's, else `M`, upper-cased |
| `DataPack.DatedValuedMembers` | backend/src/services/data_pack_builder.py:35 | the kept points are the observations with both a period and a value, read at strictly increasing positions that are exactly those of such observations, so order and multiplicity are kept; a point is kept exactly when such an observation carries it, and none is kept exactly when no observation has both |
| `DataPack.OrderedFacts` | backend/src/services/data_pack_builder.py:35 | the kept points are in period order and are a permutation of the valued points in input order, so each valued observation appears as often as in the input |
| `DataPack.DeriveStatsLatest` | backend/src/services/data_pack_builder.py:34-42 | the statistics are empty exactly when no observation has a period and a value; otherwise the latest period and value form an observation and no valued observation has a later period |
| `DataPack.DeriveStatsRange` | backend/src/services/data_pack_builder.py:55-66 | `min` and `max` are observed values that bound every valued observation and the latest value; both rolling averages lie within them |
| `DataPack.DeriveStatsDeltas` | backend/src/services/data_pack_builder.py:44-63 | the month-on-month change exists exactly from two points and is latest minus the previous; the year-on-year change exists exactly past one year of periods and compares with the point that many places back; the averages exist exactly from 3 and from one year of points and are the means of the last 3 and of the last year of values in period order |
| `DataPack.StatsOfDeltas` | backend/src/services/data_pack_builder.py:40-63 | the same presence rules, differences and rolling means, stated over the ordered points |
| `DataPack.DeriveStatsAsWritten` | backend/src/services/data_pack_builder.py:34-42 | the source's version raises whenever a valued observation has no period |
| `DataPack.DeriveStatsAsWrittenAgrees` | backend/src/services/data_pack_builder.py:35 | when every valued observation is dated, the source's version computes what `DeriveStats` does |
| `DataPack.DeriveStatsAsWrittenRaises` | backend/src/services/data_pack_builder.py:35-41 | one undated valued point beside one dated point: the source's version raises, the corrected one reports the dated point |
| `DataPack.Dated` | backend/src/services/data_pack_builder.py:73 | keeps exactly the observations that carry a period |
| `DataPack.DatedOrderedMembers` | backend/src/services/data_pack_builder.py:73 | sorting permutes the dated observations, which are the observations read at strictly increasing positions that are exactly those with a period |
| `DataPack.MissingPeriodsEmpty` | backend/src/services/data_pack_builder.py:92 | no period is reported missing exactly when every dated observation has a value |
| `DataPack.MissingPeriodsMembers` | backend/src/services/data_pack_builder.py:92 | every period reported missing belongs to a dated observation without a value |
| `DataPack.AnyFailedMeans` | backend/src/services/data_pack_builder.py:104 | `any(not check["ok"])` holds exactly when some check failed |
| `DataPack.QualityChecks` | backend/src/services/data_pack_builder.py:70-110 | the method computes the status, checks and limitations of `QualityOf` for the given day |
| `DataPack.GradeDated` | backend/src/services/data_pack_builder.py:77-110 | the appending steps past the emptiness test compute `Graded` |
| `DataPack.QualityUnavailable` | backend/src/services/data_pack_builder.py:73-75 | with no dated observation the series is red with the single failing availability check and its limitation |
| `DataPack.QualityCheckRules` | backend/src/services/data_pack_builder.py:77-99 | with a dated observation there are exactly the freshness and missing-value checks; freshness passes exactly when some period is within 40 days (monthly) or 120 days of today, and the missing-value check exactly when every dated observation has a value |
| `DataPack.GradedChecks` | backend/src/services/data_pack_builder.py:77-99 | the same two checks over the ordered dated observations, freshness judged on the last one |
| `DataPack.DatedLatest` | backend/src/services/data_pack_builder.py:73-77 | the last ordered dated observation is an observation whose period no dated observation exceeds |
| `DataPack.DatedAllValued` | backend/src/services/data_pack_builder.py:92-96 | every ordered dated observation has a value exactly when every dated observation does |
| `DataPack.QualityGrade` | backend/src/services/data_pack_builder.py:103-108 | fewer than three dated observations force red and note the short window; from three on the series is green exactly when both checks pass and amber otherwise |
| `DataPack.QualityLimitations` | backend/src/services/data_pack_builder.py:88-108 | stale data is reported exactly when freshness fails; a missing-values entry exactly when that check fails, listing only dated observations without a value; nothing else but the short-window note |
| `DataPack.GradedLimitations` | backend/src/services/data_pack_builder.py:88-108 | the same limitations over the ordered dated observations |
| `DataPack.LimitationsMembers` | backend/src/services/data_pack_builder.py:88-108 | a limitation is listed exactly when its condition holds |
| `DataPack.PyPrefix` | backend/src/services/data_pack_builder.py:198 | `s[:n]` is a prefix of `s`: of `n` items, or all of `s` when it is shorter, for `n >= 0`; for a negative `n`, all but the last `-n` items, none when there are no more |
| `DataPack.FetchLimit` | backend/src/services/data_pack_builder.py:137 | the limit is at least 12 and at least the lookback plus 4, and equals one of them |
| `DataPack.Observations` | backend/src/services/data_pack_builder.py:164-173 | one observation per fetched row, in order, each the row's parsed period and float value (`None` when absent or unparsable) |
| `DataPack.RequestFor` | backend/src/services/data_pack_builder.py:135-162 | a query exists exactly for an ONS or OECD provider; it has no period bounds and the fetch limit; ONS takes the selection's dataset else the configuration's, OECD the dataset code and the location defaulting to `GBR` |
| `DataPack.AggregateIsWorst` | backend/src/services/data_pack_builder.py:211-215 | the aggregate status is the worst series grade, red over amber over green |
| `DataPack.BuildDataPack` | backend/src/services/data_pack_builder.py:118-235 | the pack's series and limitations are those of processing the selections in order, its status the aggregate grade, its coverage check passes exactly when some series is included, and its hash is taken over the topic and series only |
| `DataPack.ProcessSkipsOnlyUnconfigured` | backend/src/services/data_pack_builder.py:129-162 | since the catalogue holds only ONS and OECD rows, a selection is skipped exactly when it has no configuration, with the "not configured" limitation |
| `DataPack.UnconfiguredAddsOneLimitation` | backend/src/services/data_pack_builder.py:131-133 | an unconfigured selection adds one limitation and no series |
| `DataPack.IncludedPayload` | backend/src/services/data_pack_builder.py:164-208 | an included series' observations are exactly the dated rows among the first `lookback_periods` fetched rows, in order, so at most that many; its statistics, latest period and grade are those of its observations |
| `DataPack.PackSeriesCount` | backend/src/services/data_pack_builder.py:129-209 | the pack holds one series per configured selection |
| `DataPack.HashIgnoresRest` | backend/src/services/data_pack_builder.py:113-115 | packs with the same topic and series have the same hash |
| `OecdFetcher.SeriesRequest` | backend/database/fetchers/oecd_fetcher.py:36-53 | the URL is the base, dataset, series key and `all`; the parameters ask for JSON, code detail and time at observation level, and carry `time` exactly for a non-empty window |
| `OecdFetcher.SeriesKeyFull` | backend/database/fetchers/oecd_fetcher.py:137 | with every part given, the key is the four parts joined by dots |
| `OecdFetcher.SeriesKeyParts` | backend/database/fetchers/oecd_fetcher.py:137 | splitting the key at its dots gives back exactly the non-empty parts, in order, when no part holds a dot |
| `OecdFetcher.DimensionValues` | backend/database/fetchers/oecd_fetcher.py:59-68 | the extraction succeeds exactly when every paired key is an integer not below minus the number of values |
| `OecdFetcher.DimensionValuesErr` | backend/database/fetchers/oecd_fetcher.py:63-67 | once a pair raises, the extraction raises with that error whatever follows |
| `OecdFetcher.ResolveLookup` | backend/database/fetchers/oecd_fetcher.py:64-67 | one step binds the dimension's id (or `dim_<idx>`) to the selected value when the key is in range, and leaves every other id alone |
| `OecdFetcher.DimensionValuesSpec` | backend/database/fetchers/oecd_fetcher.py:59-68 | with distinct ids, each paired dimension is bound to the value its key selects, or is absent when the key is past its values; no other id is bound |
| `OecdFetcher.ResolveKey` | backend/database/fetchers/oecd_fetcher.py:64-67 | the loop body computes the resolution step, raising for a malformed key and for an index below `-len(values)` |
| `OecdFetcher.ExtractDimensionValues` | backend/database/fetchers/oecd_fetcher.py:59-68 | the loop over the zipped pairs computes the extraction, stopping at the first error |
| `OecdFetcher.TimeLookup` | backend/database/fetchers/oecd_fetcher.py:71-75 | the map is empty when no dimension is `TIME_PERIOD` |
| `OecdFetcher.TimeLookupAt` | backend/database/fetchers/oecd_fetcher.py:71-75 | the key `str(i)` reads the id of the `i`-th value of the first `TIME_PERIOD` dimension |
| `OecdFetcher.PeriodLabelFallback` | backend/database/fetchers/oecd_fetcher.py:105 | an observation key that is not a time index is kept as its own period label |
| `OecdFetcher.RecordKeys` | backend/database/fetchers/oecd_fetcher.py:107-121 | a record has no key twice |
| `OecdFetcher.RecordFields` | backend/database/fetchers/oecd_fetcher.py:98-121 | a record carries the dataset code, the period label, the normalised first value, the unit (given, else the measure) and each dimension's resolved code or its default |
| `OecdFetcher.DimCodeDefault` | backend/database/fetchers/oecd_fetcher.py:98-101 | an unresolved dimension takes the default code |
| `OecdFetcher.RecordStorable` | backend/database/fetchers/oecd_fetcher.py:107-121 | every record has the keys the OECD store requires |
| `OecdFetcher.SeriesRecords` | backend/database/fetchers/oecd_fetcher.py:104-122 | one record per observation of a series |
| `OecdFetcher.EntryRecords` | backend/database/fetchers/oecd_fetcher.py:95-122 | a series that decodes gives one record per observation |
| `OecdFetcher.RecordsOf` | backend/database/fetchers/oecd_fetcher.py:95-122 | a decoded run of series gives as many records as they have observations |
| `OecdFetcher.RecordsStep` | backend/database/fetchers/oecd_fetcher.py:95-122 | one more series appends its records, or its error is the result |
| `OecdFetcher.RecordsErr` | backend/database/fetchers/oecd_fetcher.py:95-97 | once a series key raises, decoding raises with that error whatever follows |
| `OecdFetcher.RecordsLayout` | backend/database/fetchers/oecd_fetcher.py:94-124 | the records of the `i`-th series sit right after those of the series before it |
| `OecdFetcher.RecordsStorable` | backend/database/fetchers/oecd_fetcher.py:139-148 | every decoded batch can be stored without a missing-key error |
| `OecdFetcher.BuildRecords` | backend/database/fetchers/oecd_fetcher.py:78-124 | the method computes the records of the payload |
| `OecdFetcher.BuildSeriesRecords` | backend/database/fetchers/oecd_fetcher.py:95-124 | the outer loop computes the records of the series in order, stopping at the first error |
| `OecdFetcher.BuildEntryRecords` | backend/database/fetchers/oecd_fetcher.py:96-104 | one series: its key resolved, then its observations walked |
| `OecdFetcher.AppendObservations` | backend/database/fetchers/oecd_fetcher.py:104-122 | the inner loop appends the record of each observation in order |
| `OecdFetcher.FetchAndStore` | backend/database/fetchers/oecd_fetcher.py:127-148 | a payload that does not decode raises with its error and writes nothing; the decoded records always make storable rows; a page of them that hits one conflict key twice raises the cardinality error and writes nothing; otherwise every record is upserted into the OECD table and the count is the number of records; the ONS table is untouched |
| `OecdFetcher.ResolveParameters` | backend/database/fetchers/oecd_fetcher.py:170-195 | a missing configuration and an incomplete one raise with their messages; otherwise `--location` wins over the row's location (default `GBR`), the row's subject, measure and frequency win over the arguments, all four identifiers are non-empty after stripping, the dataset is the stripped `dataset_code` or `dataset_id`, a field missing from the row falls back to the stripped argument, and the window and unit prefer the arguments; without `--config` the stripped arguments are used |
| `OnsFetcher.TimeseriesRequest` | backend/database/fetchers/ons_fetcher.py:28-33 | the URL template filled with the series and dataset; a `time` parameter exactly for a non-empty filter |
| `OnsFetcher.LabelsOf` | backend/database/fetchers/ons_fetcher.py:51-53 | the dataset and series labels are the description's truthy `datasetId` and `seriesId`, else the arguments; a missing description is `{}` |
| `OnsFetcher.EntryRecordKeys` | backend/database/fetchers/ons_fetcher.py:68-82 | a record has no key twice |
| `OnsFetcher.EntryRecordFields` | backend/database/fetchers/ons_fetcher.py:68-82 | a record carries the two labels, the entry's period, the normalised value, the group name and the description's title, unit and measure |
| `OnsFetcher.PeriodPrecedence` | backend/database/fetchers/ons_fetcher.py:64 | the period is the first truthy one of `date`, `time` and `period` |
| `OnsFetcher.EntryRecordStorable` | backend/database/fetchers/ons_fetcher.py:68-82 | every record has the keys the ONS store requires |
| `OnsFetcher.GroupRecordsOrder` | backend/database/fetchers/ons_fetcher.py:63-83 | the records of a group are exactly those of its dated entries, position by position |
| `OnsFetcher.GroupRecordsShape` | backend/database/fetchers/ons_fetcher.py:63-83 | each record of a group names that group, has a truthy period and can be stored |
| `OnsFetcher.OnsRecordsGroups` | backend/database/fetchers/ons_fetcher.py:56-62 | the months come first, then the quarters, then the years |
| `OnsFetcher.OnsRecordsOrdered` | backend/database/fetchers/ons_fetcher.py:56-85 | each record's dimension is its group and its period truthy, the groups never interleave, and every record can be stored |
| `OnsFetcher.OnsRecordsStorable` | backend/database/fetchers/ons_fetcher.py:88-92 | storing the decoded records never raises a missing-key error |
| `OnsFetcher.BuildRecords` | backend/database/fetchers/ons_fetcher.py:49-85 | the method computes the records of the payload |
| `OnsFetcher.BuildGroupRecords` | backend/database/fetchers/ons_fetcher.py:63-83 | the inner loop appends one record per dated entry in order |
| `OnsFetcher.FetchAndStore` | backend/database/fetchers/ons_fetcher.py:88-92 | the records of the response always make storable rows; a page of them that hits one conflict key twice raises the cardinality error and writes nothing; otherwise every record is upserted into the ONS table and the count is their number; the OECD table is untouched |
| `OnsFetcher.ResolveParameters` | backend/database/fetchers/ons_fetcher.py:109-126 | a missing configuration and one without dataset or series identifiers raise with their messages; otherwise the stripped `dataset_id` (else `dataset_code`) and `series_id`, with `--time` winning over the row's filter; without `--config` the stripped arguments |
| `Ingest.Wanted` | backend/scripts/ingest_economic_data.py:25 | the wanted slugs are the given ones lower-cased |
| `Ingest.FilterConfigs` | backend/scripts/ingest_economic_data.py:22-26 | everything when no slugs are given; otherwise exactly the configurations whose lower-cased slug is wanted, in their order |
| `Ingest.FilterConfigsOrder` | backend/scripts/ingest_economic_data.py:26 | the chosen configurations are read from the list at strictly increasing positions, exactly those whose slug is wanted, all of them when no slugs are given |
| `Ingest.FilterConfigsIgnoresCase` | backend/scripts/ingest_economic_data.py:25-26 | a configuration is chosen whatever case its slug is given in |
| `Ingest.Dispatch` | backend/scripts/ingest_economic_data.py:29-67 | the provider is upper-cased; an ONS row needs a stripped dataset (`dataset_id`, else `dataset_code`) and series, an OECD row a stripped dataset, subject, measure and frequency, the location defaulting to `GBR`; the override wins over the row's time filter; any other provider raises the unknown-provider message |
| `Ingest.DispatchIgnoresCase` | backend/scripts/ingest_economic_data.py:30 | the provider is matched without regard to case |
| `Ingest.OnsNeverIngests` | backend/scripts/ingest_economic_data.py:32-45 | an ONS row never ingests: it fails validation, or the call raises on the `resource_path` argument the ONS fetcher does not take; nothing is written |
| `Ingest.UnknownProviderFails` | backend/scripts/ingest_economic_data.py:67 | a provider other than ONS and OECD fails with the unknown-provider message |
| `Ingest.RunIngestion` | backend/scripts/ingest_economic_data.py:29-67 | the outcome and the new OECD table are those of validating the row and handing it to its fetcher, whatever the fetched batch: a failure of any kind, a page with a repeated conflict key included, rolls back and leaves the table as it was; the ONS table is untouched |
| `Ingest.OecdAfterAllStep` | backend/scripts/ingest_economic_data.py:97-131 | ingesting one more configuration applies its effect after those before it |
| `Ingest.IngestSources` | backend/scripts/ingest_economic_data.py:70-133 | no matching configuration gives the single skipped result; otherwise one result per configuration in order, a dry run writing nothing, and an error not stopping the ones after it |
| `Ingest.IngestConfigs` | backend/scripts/ingest_economic_data.py:97-133 | the loop gives one result per configuration and applies their effects in order |
| `Ingest.IngestOne` | backend/scripts/ingest_economic_data.py:113-131 | one configuration's result is its count on success and the error's text otherwise |
| `Llm.FallbackShape` | backend/src/services/llm_service.py:86-110 | the fallback is amber with the single failing `llm_fallback` check, has no sections and no charts, and is titled "Data-only briefing" |
| `Llm.FallbackKeys` | backend/src/services/llm_service.py:88-110 | the fallback has the five top-level keys of the briefing schema, in order, each once |
| `Llm.FallbackEcho` | backend/src/services/llm_service.py:109 | the exported markdown is a text fence around the first 400 characters of the prompt |
| `Llm.ModesDistinct` | backend/src/services/llm_service.py:69-70 | a create key never equals an edit key |
| `Llm.KeyDeterminesPayload` | backend/src/services/llm_service.py:69-70 | within one mode, equal keys mean equal serialised payloads |
| `Llm.LlmService.constructor` | backend/src/services/llm_service.py:22-26 | the cache starts empty and no call has been made |
| `Llm.LlmService.Answer` | backend/src/services/llm_service.py:72-84 | the fallback without a client, the parsed reply with one |
| `Llm.LlmService.CallModel` | backend/src/services/llm_service.py:72-84 | the model is asked exactly when a client is configured |
| `Llm.LlmService.Memoised` | backend/src/services/llm_service.py:114-121 | a hit returns the stored response without asking the model; a miss asks it and stores the response under the key |
| `Llm.LlmService.CreateBriefing` | backend/src/services/llm_service.py:112-121 | memoised on the create key of the four inputs, the model asked with the create prompt only on a miss |
| `Llm.LlmService.EditBriefing` | backend/src/services/llm_service.py:123-138 | memoised on the edit key of the three inputs, the model asked with the edit prompt only on a miss |
| `BriefingRepo.VersionsOfMembers` | backend/src/repositories/briefings.py:85-94 | exactly the briefing's versions are selected |
| `BriefingRepo.MaxNumber` | backend/src/repositories/briefings.py:29 | `MAX(version_number)` is NULL exactly over no rows |
| `BriefingRepo.MaxOfConsecutive` | backend/src/repositories/briefings.py:29 | over a chain numbered 1..N the maximum is N |
| `BriefingRepo.NextIsCount` | backend/src/repositories/briefings.py:28-33 | on a numbered table the next number is one more than the briefing's number of versions |
| `BriefingRepo.AppendKeepsNumbered` | backend/src/repositories/briefings.py:36-65 | appending a version with the next number keeps every chain numbered 1..N |
| `BriefingRepo.Gapless` | backend/src/repositories/briefings.py:28-65 | a briefing's version numbers, in insertion order, are exactly 1, 2, ..., N, so no two versions share one |
| `BriefingRepo.ListVersionsOrder` | backend/src/repositories/briefings.py:85-94 | the briefing's rows in reverse insertion order are exactly its versions, and on a numbered table they go by descending number from N down to 1 |
| `BriefingRepo.SetLatestOnly` | backend/src/repositories/briefings.py:68-71 | the update points the named briefing at the version and changes no other row or column |
| `BriefingRepo.FindVersion` | backend/src/repositories/briefings.py:74-82 | a result is a row with both the briefing and the version id; none exactly when no row has both |
| `BriefingRepo.FindVersionScoped` | backend/src/repositories/briefings.py:74-82 | another briefing's version is never returned, whatever its id |
| `BriefingRepo.FindBriefing` | backend/src/repositories/briefings.py:21-25 | a result is a row with the id; none exactly when no row has it |
| `BriefingRepo.ChatOf` | backend/src/repositories/briefings.py:143-153 | the briefing's messages are the table read at strictly increasing positions, exactly the positions of that briefing's messages, so in table order and with their multiplicity |
| `BriefingRepo.CommentsOf` | backend/src/repositories/briefings.py:131-140 | the version's comments are the table read at strictly increasing positions, exactly the positions of that version's comments |
| `BriefingRepo.ChatPage` | backend/src/repositories/briefings.py:143-153 | a negative limit is rejected; otherwise the first `limit` of the briefing's messages, oldest first, exactly `limit` of them or all when fewer |
| `BriefingRepo.FreshBriefingId` | backend/src/repositories/briefings.py:10-18 | a new briefing with the next identifier keeps identifiers distinct and below the generator |
| `BriefingRepo.FreshVersionId` | backend/src/repositories/briefings.py:36-65 | a new version with the next identifier keeps identifiers distinct and below the generator |
| `BriefingRepo.BriefingStore.constructor` | backend/src/repositories/briefings.py:1-153 | the four tables start empty |
| `BriefingRepo.BriefingStore.CreateBriefing` | backend/src/repositories/briefings.py:10-18 | appends one briefing with a fresh id and no latest version; the other tables are untouched |
| `BriefingRepo.BriefingStore.GetBriefing` | backend/src/repositories/briefings.py:21-25 | a result is a stored briefing with the id; none exactly when no briefing has it |
| `BriefingRepo.BriefingStore.InsertVersion` | backend/src/repositories/briefings.py:36-65 | appends one version numbered one past the briefing's count, carrying the given contents; existing rows and the other tables are untouched |
| `BriefingRepo.BriefingStore.UpdateLatestVersion` | backend/src/repositories/briefings.py:68-71 | only the named briefing's pointer changes |
| `BriefingRepo.BriefingStore.GetVersion` | backend/src/repositories/briefings.py:74-82 | a result is a stored version of that briefing with that id; none exactly when there is none |
| `BriefingRepo.BriefingStore.ListVersions` | backend/src/repositories/briefings.py:85-94 | exactly the briefing's versions, numbered N down to 1 on a valid store |
| `BriefingRepo.BriefingStore.InsertChatMessage` | backend/src/repositories/briefings.py:97-111 | appends one message with a fresh id; the other tables are untouched |
| `BriefingRepo.BriefingStore.InsertComment` | backend/src/repositories/briefings.py:114-128 | appends one comment with a fresh id and the default status; the other tables are untouched |
| `BriefingRepo.BriefingStore.ListComments` | backend/src/repositories/briefings.py:131-140 | the comments table read at strictly increasing positions, exactly those of the version's comments, oldest first |
| `BriefingRepo.BriefingStore.ListChatMessages` | backend/src/repositories/briefings.py:143-153 | a negative limit is rejected; otherwise the first `limit` of the briefing's messages in table order, exactly `limit` of them or all when fewer |
| `BriefingService.TitleCaseAt` | backend/src/services/briefing_service.py:37 | `str.title()` upper-cases a letter that starts a word and lower-cases the other letters, keeping every other character and the length |
| `BriefingService.BriefingTitle` | backend/src/services/briefing_service.py:35-38 | the document's non-empty title, else the title-cased topic followed by " briefing"; never empty |
| `BriefingService.ChangeSummaryOf` | backend/src/services/briefing_service.py:108 | the reply's non-empty change summary, else "Applied requested edits."; never empty |
| `BriefingService.UpdatedContent` | backend/src/services/briefing_service.py:107 | the reply's truthy updated briefing, else the base version's content |
| `BriefingService.ChatBase` | backend/src/services/briefing_service.py:90-100 | the base is found exactly when the briefing exists, has a target or a latest version, and that version is one of this briefing; each failure raises its own error exactly in its case; the base found is a version of this briefing with the target id, else the latest |
| `BriefingService.SetLatestFound` | backend/src/services/briefing_service.py:48 | after pointing a briefing at a version, looking the briefing up sees that pointer |
| `BriefingService.CreatedPointsLatest` | backend/src/services/briefing_service.py:39-60 | after a creation the new briefing points at the new version and has one more version |
| `BriefingService.EditedPointsLatest` | backend/src/services/briefing_service.py:110-130 | after an edit the briefing points at the new version and has one more version |
| `BriefingService.Entries` | backend/src/services/briefing_service.py:175-184 | one summary entry per version, in the listed order |
| `BriefingService.BriefingService.constructor` | backend/src/services/briefing_service.py:18-20 | the service holds the given store, model service and pack serialiser |
| `BriefingService.BriefingService.CreateBriefing` | backend/src/services/briefing_service.py:22-65 | the document is the cached one for the pack's create key on a hit, and the model's answer to the create prompt on a miss; it fails exactly when that answer is an error, with its message, leaving tables and cache as they were; on success the cache holds the document under the key, the model is asked once exactly on a miss with a client, the briefing and version ids are the next two identifiers, and the tables change by exactly the creation's writes, titled from the document or the topic |
| `BriefingService.BriefingService.RecordCreation` | backend/src/services/briefing_service.py:39-60 | the briefing, its first version, the pointer update and the two chat messages, in order |
| `BriefingService.BriefingService.HandleChat` | backend/src/services/briefing_service.py:83-136 | a failed base lookup raises before the model is asked; otherwise the reply is the cached one for the edit key on a hit and the model's answer to the edit prompt on a miss, the call fails exactly when that answer is an error, the cache gains the answer, and on success the new version carries the reply's updated content and change summary and the tables change by exactly the edit's writes; any error writes nothing |
| `BriefingService.BriefingService.RecordEdit` | backend/src/services/briefing_service.py:110-130 | the new version, the pointer update and the two chat messages, in order |
| `BriefingService.BriefingService.GetVersion` | backend/src/services/briefing_service.py:67-81 | only a version of that briefing is returned; "Version not found." exactly when there is none |
| `BriefingService.BriefingService.ExportContent` | backend/src/services/briefing_service.py:162-166 | the content handed to the renderer is that of a version of that briefing, which must exist |
| `BriefingService.BriefingService.AddComment` | backend/src/services/briefing_service.py:138-160 | a comment is written exactly when the briefing exists and the version belongs to it, with a fresh id and the default status; otherwise the matching error and nothing written |
| `BriefingService.BriefingService.GetBriefingDetail` | backend/src/services/briefing_service.py:168-185 | a missing briefing raises; otherwise the briefing and one entry per version, newest first |
| `Schemas.MakeOptions` | backend/src/schemas/briefings.py:16-21 | accepted exactly when the look-back is omitted or within 1..240; each omitted field takes its default ("latest", 24, false, "ministerial", "one_page") and each given one is kept |
| `Schemas.DefaultOptions` | backend/src/schemas/briefings.py:16-21 | the all-default options, which satisfy the look-back bounds |
| `Schemas.MakeSelectedSeries` | backend/src/schemas/briefings.py:9-13 | accepted exactly when both identifiers are given; the optional fields are kept as given |
| `Schemas.MakeCreateRequest` | backend/src/schemas/briefings.py:24-28 | omitted options become the valid default options; the other fields are kept |
| `SeriesRepo.SearchSeriesQuery` | backend/src/repositories/series.py:9-31 | the statement is the select, then the topic clause when a topic is given, the text clause when a search text is given and the order-and-limit tail, with the matching parameters (the topic twice, the `%text%` pattern twice, the limit), and it holds exactly as many placeholders as parameters |
| `SeriesRepo.ClauseHoles` | backend/src/repositories/series.py:9-30 | the select has no placeholder, each filter clause two and the tail one |
| `SeriesRepo.SearchSeries` | backend/src/repositories/series.py:8-35 | a negative limit is an error; otherwise enabled matching rows of the table, ordered by slug, exactly `limit` of them or all when fewer, each at most as often as it matches, and every matching row left out has a slug no smaller than the last one kept |
| `SeriesRepo.TextFilterIsContainment` | backend/src/repositories/series.py:25-28 | for a search text without `%`, `_` or backslash, a row passes the text filter exactly when its slug or description contains the text, ignoring case |
| `SeriesRepo.TopicFilterIgnoresCase` | backend/src/repositories/series.py:16-23 | two topics equal up to case select the same rows |
| `SeriesRepo.FindBySource` | backend/src/repositories/series.py:38-53 | a found row is in the table and matches the upper-cased provider and the identifier; nothing is found exactly when no row matches |
| `SeriesRepo.FindBySourceRules` | backend/src/repositories/series.py:39-48 | the source name's case does not matter; a found row is enabled and is matched on `series_id` for ONS and on `subject` for OECD; any other provider finds nothing |
| `SeriesService.OecdSelectHoles` | backend/src/services/series_service.py:53-63 | the OECD identity select binds exactly the five identity values |
| `SeriesService.FilterHoles` | backend/src/services/series_service.py:24-34 | each optional filter clause and the order-and-limit tail hold one placeholder |
| `SeriesService.AddFilter` | backend/src/services/series_service.py:24-32 | a present value appends its clause and its parameter, an absent one neither, and placeholders stay equal to parameters |
| `SeriesService.OnsQuery` | backend/src/services/series_service.py:17-35 | the series id, then the dataset id and the period bounds each only when given and in that order, then the limit; one placeholder per parameter; always ending with the descending order and the limit |
| `SeriesService.OecdQuery` | backend/src/services/series_service.py:53-73 | the five identity values first, then the optional period bounds, then the limit; one placeholder per parameter; always ending with the descending order and the limit |
| `SeriesService.Remapped` | backend/src/services/series_service.py:81-82 | `dataset_id` takes the row's `dataset_code`, `series_id` its `subject`, and every other field is unchanged |
| `SeriesService.RemapOecdRows` | backend/src/services/series_service.py:79-84 | one remapped row per fetched row, in order |
| `SeriesService.ResolveSeriesBySlug` | backend/src/services/series_service.py:87-146 | an unknown slug fails with its message; a resolution names the slug and the configured provider, which is ONS or OECD; its request is the ONS fetch of the configured series and dataset, or the OECD fetch of the configured dataset code, location (GBR by default), subject, measure and frequency, with the period bounds and the limit; it carries the fetched rows, remapped for OECD |
| `SeriesService.ResolveErrors` | backend/src/services/series_service.py:100-146 | ONS fails exactly when `series_id` is missing, OECD exactly when the dataset code, subject, measure or frequency is missing, any other provider is unsupported, each with its message; a resolved request carries the configured identifiers, OECD's location defaulting to GBR and its series id being the subject |
| `Synthetic.MonthSeriesSpec` | backend/src/services/synthetic_data_service.py:13-31 | the series ends with the current month, its labels never repeat, each label is the first of the month after the previous one, and with four-digit years they ascend as text |
| `Synthetic.GenerateMonthSeries` | backend/src/services/synthetic_data_service.py:13-31 | the walk back fails with the year-out-of-range error exactly when it would step before January of year 1; otherwise the labels of the months ending now, oldest first, zipped with the drawn values |
| `Synthetic.SeededOnsRow` | backend/src/services/synthetic_data_service.py:43-44 | the row is keyed on the series id (the config's `series_id`, else its slug) and the period, its dataset falls back to `dataset_code` then FAKE_DATASET and its title to the series id |
| `Synthetic.SeededOnsRows` | backend/src/services/synthetic_data_service.py:56-69 | one row per generated point, in order |
| `Synthetic.WithoutOnsSeries` | backend/src/services/synthetic_data_service.py:52-54 | the delete removes every row of the series and keeps every other row unchanged |
| `Synthetic.OnsSeedOutcome` | backend/src/services/synthetic_data_service.py:42-81 | an existing series without `force` returns 0 and changes nothing; otherwise it fails exactly when the month walk fails and else returns the number of periods |
| `Synthetic.SeededOnsDistinct` | backend/src/services/synthetic_data_service.py:56-69 | rows of one series with distinct period labels have distinct keys |
| `Synthetic.InsertFresh` | backend/src/services/synthetic_data_service.py:71-80 | a plain insert of rows with distinct keys into a table holding none of their series meets no existing key, keeps every stored row, stores each new row as given, and the series then holds exactly those rows |
| `Synthetic.OnsSeedSpec` | backend/src/services/synthetic_data_service.py:42-81 | a seeding that runs keeps the table keyed and every other series' rows; on success the series holds exactly the generated rows as built; a failing walk after a forced delete leaves the series empty |
| `Synthetic.OnsInsertSeries` | backend/src/services/synthetic_data_service.py:52-80 | the delete-then-insert step for any series of distinct labels: keyed, other series kept, the new rows exactly |
| `Synthetic.SeedOnsSeries` | backend/src/services/synthetic_data_service.py:42-81 | returns and stores what the ONS outcome function says and leaves the OECD table alone |
| `Synthetic.TargetOf` | backend/src/services/synthetic_data_service.py:85-89 | the OECD identity with its fallbacks: dataset FAKE_MEI, location GBR, subject the series id or slug, measure STSA, frequency M |
| `Synthetic.CoalesceText` | backend/src/services/synthetic_data_service.py:93-94 | `COALESCE(column, '')` keeps any non-null value |
| `Synthetic.WithoutOecdSeries` | backend/src/services/synthetic_data_service.py:100-111 | the delete removes every row on the target and keeps every other row unchanged |
| `Synthetic.SeededOecdRow` | backend/src/services/synthetic_data_service.py:113-126 | the row lies on the target, carries the period, and its unit falls back to Index |
| `Synthetic.SeededOecdRows` | backend/src/services/synthetic_data_service.py:113-126 | one row per generated point, in order |
| `Synthetic.OecdSeedOutcome` | backend/src/services/synthetic_data_service.py:84-138 | an existing series without `force` returns 0 and changes nothing; otherwise it fails exactly when the month walk fails and else returns the number of periods |
| `Synthetic.SeededOecdDistinct` | backend/src/services/synthetic_data_service.py:113-126 | rows on one target with distinct period labels have distinct keys |
| `Synthetic.OecdSeedSpec` | backend/src/services/synthetic_data_service.py:84-138 | a seeding that runs keeps the table keyed and every row off the target; on success the target holds exactly the generated rows as built |
| `Synthetic.OecdInsertSeries` | backend/src/services/synthetic_data_service.py:100-137 | the delete-then-insert step for any series of distinct labels |
| `Synthetic.SeedOecdSeries` | backend/src/services/synthetic_data_service.py:84-138 | returns and stores what the OECD outcome function says and leaves the ONS table alone |
| `Synthetic.SeedOutcome` | backend/src/services/synthetic_data_service.py:141-147 | a provider other than ONS or OECD, after upper-casing, raises the unsupported-provider error, and a seeder leaves the other table alone |
| `Synthetic.SeedOutcomeIgnoresCase` | backend/src/services/synthetic_data_service.py:142 | the provider is matched regardless of case |
| `Synthetic.OnsSeedIgnoresProvider` | backend/src/services/synthetic_data_service.py:42-81 | the ONS seeder never reads the provider |
| `Synthetic.OecdSeedIgnoresProvider` | backend/src/services/synthetic_data_service.py:84-138 | the OECD seeder never reads the provider |
| `Synthetic.SeedSeriesByConfig` | backend/src/services/synthetic_data_service.py:141-147 | returns and stores what the dispatch outcome says |
| `Synthetic.SeedBySlugOutcome` | backend/src/services/synthetic_data_service.py:150-154 | a slug without an enabled configuration raises "No configuration found" and changes nothing |
| `Synthetic.SeedSeriesBySlug` | backend/src/services/synthetic_data_service.py:150-154 | returns and stores what the slug outcome says |
| `Seed.GenerateMonthLabels` | backend/scripts/seed_economic_data.py:58-67 | the walk back fails exactly when it would step before January of year 1; otherwise the `%Y-%m` labels of the months ending now, oldest first, the last being the current month |
| `Seed.LabelsOfMonths` | backend/scripts/seed_economic_data.py:58-67 | each label is that of the matching month, the last is the current month's, labels never repeat, and with four-digit years they ascend as text |
| `Seed.FakeOnsRows` | backend/scripts/seed_economic_data.py:144-157 | one row per label, keyed on FAKE_CPI and that label |
| `Seed.FakeOecdRows` | backend/scripts/seed_economic_data.py:179-192 | one row per label, keyed on FAKE_MEI/GBR/CLI/STSA/M and that label |
| `Seed.FakeOnsConflict` | backend/scripts/seed_economic_data.py:135-142 | on a conflict the value, unit, measure, metadata and title are replaced while the key, dataset id and dimension stay as stored |
| `Seed.FakeRowsDistinct` | backend/scripts/seed_economic_data.py:144-192 | distinct labels give rows with distinct conflict keys |
| `Seed.SeedFakeOnsData` | backend/scripts/seed_economic_data.py:128-162 | fails exactly when the walk fails, leaving the table; otherwise returns the record count, each label's row is stored (merged with a stored row by the conflict rule), every other row is kept, and the keys grow by exactly the new ones |
| `Seed.SeedFakeOecdData` | backend/scripts/seed_economic_data.py:165-197 | fails exactly when the walk fails; otherwise returns the record count, each label's row is stored as built, every other row is kept, and the keys grow by exactly the new ones |
| `Seed.LookupRow` | backend/scripts/seed_economic_data.py:104-122 | the written row is the entry with its metadata defaulted to `{}`, enabled and stamped now |
| `Seed.UpsertConfigSpec` | backend/scripts/seed_economic_data.py:88-103 | the upsert by slug keeps slugs unique, leaves the new row as the only one with its slug, keeps every row with another slug and adds no other row |
| `Seed.SeedLookupTableSpec` | backend/scripts/seed_economic_data.py:24-55 | afterwards both lookup slugs resolve, with or without their provider filter, to the seeded rows, every row with another slug is kept, and slugs stay unique |
| `Seed.SeedLookupRows` | backend/scripts/seed_economic_data.py:80-125 | both seeded rows are present, slugs stay unique and every row with another slug is kept |
| `Seed.Resolves` | backend/src/economic_data_service.py:105-121 | with unique slugs, a stored row that matches the filter is what a lookup of its slug returns |
| `Calendar.Prev` | backend/scripts/seed_economic_data.py:64-66 | one step back: defined exactly when the month is after January of year 1 (`replace` raises there), it is the previous month, and January steps to December of the year before |
| `Calendar.MonthsEndingSpec` | backend/scripts/seed_economic_data.py:61-67 | the months the walk visits, once reversed, are valid, end with the current month, each is one step before the next, and they strictly ascend |
| `Calendar.MonthLabelInjective` | backend/scripts/seed_economic_data.py:63 | distinct months give distinct `%Y-%m` labels |
| `Calendar.DayLabelInjective` | backend/src/services/synthetic_data_service.py:18 | distinct months give distinct `%Y-%m-01` labels |
| `Calendar.MonthLabelOrder` | backend/scripts/seed_economic_data.py:63 | for four-digit years a later month has a later seven-character `%Y-%m` label |
| `Calendar.DayLabelOrder` | backend/src/services/synthetic_data_service.py:18 | for four-digit years a later month has a later `%Y-%m-01` label |
| `Base.Strip` | backend/scripts/ingest_economic_data.py:33-34 | `str.strip()` yields a contiguous piece of the string with only whitespace cut from either end and no whitespace left at its ends |
| `Base.StripNone` | backend/scripts/ingest_economic_data.py:33-34 | a string without surrounding whitespace is its own strip |
| `Base.StripNonEmpty` | backend/scripts/ingest_economic_data.py:33-36 | the stripped text is non-empty exactly when the string has a non-whitespace character |
| `Base.Upper` | backend/src/services/synthetic_data_service.py:142 | `str.upper()` keeps the length and upper-cases each character |
| `Base.Lower` | backend/scripts/ingest_economic_data.py:25-26 | `str.lower()` keeps the length and lower-cases each character |
| `Base.UpperIdempotent` | backend/scripts/ingest_economic_data.py:30 | upper-casing twice is upper-casing once |
| `Base.NatToStringInjective` | backend/database/fetchers/oecd_fetcher.py:67 | distinct numbers print differently |
| `Base.ParsePrinted` | backend/database/fetchers/oecd_fetcher.py:65-67 | `int(str(n)) == n` for a non-negative count |
| `Base.Split` | backend/database/fetchers/oecd_fetcher.py:96 | `str.split` on one character always yields at least one piece |
| `Base.JoinSplit` | backend/database/fetchers/oecd_fetcher.py:96 | joining the pieces of a split with the separator gives the string back |
| `Base.SplitJoin` | backend/database/fetchers/oecd_fetcher.py:96 | splitting a join of separator-free pieces gives the pieces back |
| `Base.Take` | backend/src/repositories/series.py:30 | `LIMIT n` keeps the prefix of exactly `n` rows, or every row when there are no more |
| `Base.First` | backend/src/repositories/series.py:49 | `LIMIT 1` yields a matching row of the table, and nothing exactly when none matches |
| `Base.Put` | backend/src/services/series_service.py:81-82 | `d[k] = v` reads back `v` at `k` and leaves every other key as it was |
| `Base.Coalesce` | backend/src/services/synthetic_data_service.py:93 | SQL `COALESCE` yields its first non-NULL argument |
| `Sorting.SortByKey` | backend/src/services/data_pack_builder.py:35 | `sorted(..., key=item[0])` returns the same observations, ascending by period |
| `Sorting.SortByKeyStable` | backend/src/services/data_pack_builder.py:35 | `sorted` is stable: for every period, the observations with that period come out in their input order |
| `Sorting.LastOfItsKey` | backend/src/services/data_pack_builder.py:38 | in period order, `ordered[-1]` is the last of the points sharing its period |
| `DataPack.LatestIsLastTie` | backend/src/services/data_pack_builder.py:35-38 | the latest point is, of the valued observations with the latest period, the last one in input order |
| `Sorting.SortBy` | backend/src/repositories/series.py:30 | `ORDER BY slug` returns the rows ascending by slug |
| `Sorting.SortByMembers` | backend/src/repositories/series.py:30 | ordering keeps exactly the same rows |
| `Sql.EscapeAddsNone` | backend/src/repositories/series.py:9-30 | a literal `%` in query text doubled for the driver adds no placeholder |
| `Sql.RenderPlaceholders` | backend/src/repositories/series.py:33-34 | the query the driver receives holds exactly one placeholder per hole |
| `Sql.LikeContains` | backend/src/repositories/series.py:26-27 | for a text without `%`, `_` or the backslash escape, `s LIKE '%text%'` holds exactly when the text occurs in `s` |
| `Sql.ILikeContains` | backend/src/repositories/series.py:26-27 | for a text without `%`, `_` or the backslash escape, `ILIKE '%text%'` is containment ignoring case |
| `Sql.LikePrefix` | backend/src/repositories/series.py:26 | for a text without `%`, `_` or the backslash escape, `s LIKE 'text%'` holds exactly when the text is a prefix of `s` |
| `Sql.LikeEscaped` | backend/src/repositories/series.py:26-27 | a backslash makes the character after it match exactly itself, `%` and `_` included |
| `SeriesRepo.SearchTextBackslash` | backend/src/repositories/series.py:26-27 | the search text is put into the pattern unescaped: the text `a\b` finds the slug `xab`, which does not contain it |
| `Sql.LikeLeadingPercent` | backend/src/repositories/series.py:26 | a leading `%` matches when some suffix matches the rest of the pattern |
| `Base.FloatOf` | backend/src/services/data_pack_builder.py:167-172 | a missing value stays missing, a number is kept, and a string goes through `float()`, with a failure read as missing |
| `Base.ReverseAt` | backend/scripts/seed_economic_data.py:67 | `reversed` puts the element at position `i` at the mirrored position |
| `Base.Or` | backend/src/services/synthetic_data_service.py:85-89 | `value or default`: a non-empty value is kept, otherwise the default |
| `Base.OrOpt` | backend/src/services/synthetic_data_service.py:43-44 | `a or b`: a non-empty first value is kept, otherwise the second |
| `Base.MapResult` | backend/src/economic_data_service.py:22-35 | a list comprehension whose step may raise: it succeeds exactly when every step does, giving every result in order |

## Left out

- Network I/O: `requests.get` in both fetchers, and the OpenAI call. The response payload or the model's reply is a parameter.
- Database plumbing: connections and cursors. The tables are in-memory values or class fields. A store call is one transaction, as `get_connection` commits on success and rolls back on an exception, so a failed call leaves its table as it was; no atomicity across connections is claimed.
- Concurrency: the race between reading the largest version number and inserting the next version is not modelled.
- `updated_at` and `created_at` timestamps. Row order stands for `ORDER BY created_at`, so insertion order is creation order.
- `api.py`, the HTTP routing and its errors. Its `_fetch_*` helpers repeat `series_service.py`, which is covered.
- `database.py` and `main.py`, the connection code and an unrelated demo.
- `pdf_service.py`. PDF rendering goes through a template library; only the existence check of `export_pdf` is modelled.
- `seed_all_series.py`, which only sums `seed_series_by_config` over the configurations.
- `parse_args`, `print` and the `main` functions. `resolve_parameters` takes a plain record of the arguments.
- TTL expiry and size eviction of the model cache: every stored response stays cached.
- The prompt texts: the prompt builders are renderer parameters of the model service.
- `json.dumps` and `sha256`: a cache key is modelled by its pre-image, the mode tag and the payload.
- `dateutil` parsing in `_parse_period` is a parameter. Dates are day numbers, and ISO rendering is a parameter.
- Floating point: values are Dafny reals.
- DataPack.DeriveStatsRange: the rolling means are exact means, without `round(..., 4)`.
- Synthetic.GenerateMonthSeries: value `k` is `draw(k)`; the random walk, its clamp at 0 and `round(..., 3)` are not modelled.
- Seed.SeedFakeOnsData: value `k` is `draw(k)`; `_generate_random_series` is not modelled.
- Seed.SeedFakeOecdData: value `k` is `draw(k)`; the random walk is not modelled.
- Calendar.MonthLabelOrder: states ascending labels only for four-digit years, because `%Y` prints years below 1000 without padding.
- Calendar.DayLabelOrder: states ascending labels only for four-digit years, for the same reason.
- Seed.LabelsOfMonths: states ascending labels only when the oldest year has four digits.
- Synthetic.MonthSeriesSpec: states ascending labels only when the oldest year has four digits.
- Base.Upper: upper-cases ASCII letters only; Unicode case mapping is not modelled.
- Base.Lower: lower-cases ASCII letters only.
- Base.ParseInt: accepts an optionally signed run of ASCII digits. It does not accept the surrounding whitespace or the underscores that `int()` allows.
- Base.GetOr: a value that is not an object is read as an empty object. The source would raise AttributeError there.
- Base.FloatOf: `float()` on a string is the `parseFloat` parameter.
- DataPack.BuildDataPack: uses the corrected `DeriveStats` of the finding below, so a valued observation whose period does not parse gives a pack where the source raises.
- DataPack.DeriveStatsDeltas: the month-on-month and year-on-year changes are exact differences, without `round(..., 4)`.
- BriefingService.TitleCase: cases ASCII letters only; `str.title()` also cases letters such as `é`.
- EconomicData.OecdKeyOf: two null subjects, measures or frequencies compare equal, where PostgreSQL's unique constraint treats null keys as distinct; the fetchers always fill these columns, so the difference is not reached.
- Sorting.StrLe: code-point order stands for `ORDER BY slug` under the database collation.
- Sql.Like: a pattern ending in a lone backslash does not match, where PostgreSQL raises; the search pattern always ends in `%`, so this is not reached.
- EconomicData.ObservationTables.StoreOns: pages are cut at the default `page_size` of 100 rows that `execute_values` uses.
- BriefingService.BriefingTitle: a non-string `briefing_meta.title` is not modelled; the title is a string or absent.
- EconomicData.MetaText: a metadata member that is not a string reads as NULL, where `->>` gives its JSON text; this shows only for a configuration whose `category`, `topic` or `frequency` metadata is not a string.
- OecdFetcher.DimId: a dimension `id` that is present but not a string (null included) is replaced by `dim_<idx>`, where `dict.get` returns it; this shows only for a structure dimension whose id is not a string.
- BriefingService.ChangeSummaryOf: a truthy `change_summary` that is not a string (a number, `true`, a non-empty list or object) is replaced by "Applied requested edits."; the source passes such a value on to the version row, the assistant message and the response, where the driver or the `str` response field decides what happens.
- BriefingService.ChatBase: briefing and version ids are natural numbers (`Id = nat`). The request schema types `target_version_id` as an optional string, so an empty string is falsy and `handle_chat` falls back to the latest version; the model has no empty id, and a present target is always used.
- ONS ingestion is modelled as the source has it. `run_ingestion` passes a `resource_path` argument that the ONS `fetch_and_store` does not accept, so ONS rows always end in an error result.

## Findings

| source | as written | input that shows it | evidently intended | confidence | as-written member | corrected member |
|---|---|---|---|---|---|---|
| backend/src/services/data_pack_builder.py:35 | `_derive_stats` keeps every observation that has a value, including one whose period did not parse, then sorts by period and calls `isoformat()` on the latest period. Two or more valued points with one undated raise TypeError in the sort; a single undated point raises AttributeError. `build_data_pack` passes unparsed periods as `None` | observations `[(None, 1.0), (date, 2.0)]` | skip undated points, as `_quality_checks` does at line 73, and take the statistics of the dated ones | not executed | `DataPack.DeriveStatsAsWrittenRaises` | `DataPack.DeriveStatsLatest` |
