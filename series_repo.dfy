/**
 * The series catalogue queries over `economic_data_sources`: the filtered, ordered search
 * (both the query text it builds and the rows it selects) and the lookup of one
 * configuration by provider and provider-side identifier.
 */
module SeriesRepo {
  import opened Base
  import opened Sorting
  import opened Sql
  import opened EconomicData

  // ---------------------------------------------------------------------------------
  // search_series: query construction

  const SearchSelect: seq<Fragment> := [Text(
    "SELECT slug, provider, dataset_id, dataset_code, series_id, location, subject, measure, frequency, unit, time_filter, description, metadata FROM economic_data_sources WHERE enabled = TRUE")]
  const TopicClause: seq<Fragment> := [
    Text(" AND (LOWER(COALESCE(metadata->>'category', metadata->>'topic')) = LOWER("), Hole,
    Text(") OR LOWER(slug) = LOWER("), Hole, Text("))")]
  const TextClause: seq<Fragment> := [Text(" AND (slug ILIKE "), Hole, Text(" OR description ILIKE "), Hole, Text(")")]
  const SearchTail: seq<Fragment> := [Text(" ORDER BY slug LIMIT "), Hole]

  /** `f"%{query_text}%"` */
  function Wildcard(text: string): string {
    "%" + text + "%"
  }

  /**
   * The query and parameters `search_series` builds: each filter that is given adds one
   * clause with two placeholders and two parameters, and the limit comes last, so the
   * driver finds exactly as many placeholders as there are parameters.
   */
  method SearchSeriesQuery(topic: Option<string>, queryText: Option<string>, limit: int)
    returns (query: seq<Fragment>, params: seq<Param>)
    ensures Holes(query) == |params|
    ensures query == SearchSelect + (if Present(topic) then TopicClause else [])
                   + (if Present(queryText) then TextClause else []) + SearchTail
    ensures params == (if Present(topic) then [PStr(topic.value), PStr(topic.value)] else [])
                    + (if Present(queryText) then [PStr(Wildcard(queryText.value)), PStr(Wildcard(queryText.value))] else [])
                    + [PInt(limit)]
  {
    ClauseHoles();
    query := SearchSelect;
    params := [];
    if Present(topic) {
      HolesAppend(query, TopicClause);
      query := query + TopicClause;
      params := params + [PStr(topic.value), PStr(topic.value)];
    }
    if Present(queryText) {
      HolesAppend(query, TextClause);
      query := query + TextClause;
      var wildcard := Wildcard(queryText.value);
      params := params + [PStr(wildcard), PStr(wildcard)];
    }
    HolesAppend(query, SearchTail);
    query := query + SearchTail;
    params := params + [PInt(limit)];
  }

  lemma ClauseHoles()
    ensures Holes(SearchSelect) == 0 && Holes(TopicClause) == 2 && Holes(TextClause) == 2 && Holes(SearchTail) == 1
  {
    assert TopicClause[1..][1..][1..][1..] == [Text("))")];
    assert TextClause[1..][1..][1..][1..] == [Text(")")];
  }

  // ---------------------------------------------------------------------------------
  // search_series: the rows selected

  /** `LOWER(COALESCE(category, topic)) = LOWER(t) OR LOWER(slug) = LOWER(t)`; NULL compares false. */
  predicate TopicMatches(c: SourceConfig, topic: string) {
    (match Coalesce(MetaText(c.metadata, "category"), MetaText(c.metadata, "topic"))
     case Some(t) => Lower(t) == Lower(topic)
     case None => false)
    || Lower(c.slug) == Lower(topic)
  }

  /** `slug ILIKE w OR description ILIKE w`; a NULL description does not match. */
  predicate TextMatches(c: SourceConfig, text: string) {
    ILike(c.slug, Wildcard(text)) || (c.description.Some? && ILike(c.description.value, Wildcard(text)))
  }

  predicate SearchMatches(c: SourceConfig, topic: Option<string>, queryText: Option<string>) {
    c.enabled
    && (Present(topic) ==> TopicMatches(c, topic.value))
    && (Present(queryText) ==> TextMatches(c, queryText.value))
  }

  function Matching(table: seq<SourceConfig>, topic: Option<string>, queryText: Option<string>): seq<SourceConfig> {
    Filter(table, c => SearchMatches(c, topic, queryText))
  }

  /**
   * `search_series(topic, query_text, limit)`: the matching enabled rows ordered by slug,
   * the first `limit` of them, so that every matching row left out has a slug no smaller
   * than the last one kept; PostgreSQL rejects a negative `LIMIT`.
   */
  function SearchSeries(table: seq<SourceConfig>, topic: Option<string>, queryText: Option<string>, limit: int): (r: Result<seq<SourceConfig>>)
    ensures r.Err? <==> limit < 0
    ensures r.Ok? ==> SortedBy(r.value, Slug)
    ensures r.Ok? ==> |r.value| == if |Matching(table, topic, queryText)| <= limit then |Matching(table, topic, queryText)| else limit
    ensures r.Ok? ==> forall c :: c in r.value ==> c in table && SearchMatches(c, topic, queryText)
    ensures r.Ok? ==> multiset(r.value) <= multiset(Matching(table, topic, queryText))
    ensures r.Ok? && r.value != [] ==>
      forall c :: c in multiset(Matching(table, topic, queryText)) - multiset(r.value) ==> StrLe(Slug(r.value[|r.value| - 1]), Slug(c))
    ensures r.Ok? && |Matching(table, topic, queryText)| <= limit ==>
      forall c :: c in table && SearchMatches(c, topic, queryText) ==> c in r.value
  {
    if limit < 0 then Err("LIMIT must not be negative")
    else
      var m := Matching(table, topic, queryText);
      var sorted := SortBy(m, Slug);
      SortByMembers(m, Slug);
      var r := Take(sorted, limit);
      SortedPrefix(sorted, |r|, Slug);
      assert sorted == r + sorted[|r|..];
      SortedCut(sorted, |r|, Slug);
      Ok(r)
  }

  /** The default page size of `search_series`. */
  const DefaultSearchLimit: int := 25

  /**
   * For a search text without LIKE metacharacters, the text filter keeps exactly the rows
   * whose slug or description contains the text, ignoring case.
   */
  lemma TextFilterIsContainment(c: SourceConfig, text: string)
    requires Literal(text)
    ensures TextMatches(c, text) <==>
      Contains(Lower(c.slug), Lower(text))
      || (c.description.Some? && Contains(Lower(c.description.value), Lower(text)))
  {
    ILikeContains(c.slug, text);
    if c.description.Some? {
      ILikeContains(c.description.value, text);
    }
  }

  /**
   * The search text goes into the pattern unescaped: a backslash in it is not searched for
   * but escapes the character after it, so the text `a\b` finds the slug `xab`.
   */
  lemma SearchTextBackslash(c: SourceConfig)
    requires c.slug == "xab"
    ensures TextMatches(c, "a\\b")
    ensures !Contains("xab", "a\\b")
  {
    assert Lower("xab") == "xab" && Lower("%a\\b%") == "%a\\b%";
    var p := "%a\\b%";
    assert Like("", p[5..]);
    assert Like("b", p[2..]);
    assert Like("ab", p[1..]);
    assert Like("ab", p);
    assert Like("xab", p);
  }

  /** The topic filter ignores case on both sides. */
  lemma TopicFilterIgnoresCase(c: SourceConfig, a: string, b: string)
    requires Lower(a) == Lower(b)
    ensures TopicMatches(c, a) <==> TopicMatches(c, b)
  {
  }

  // ---------------------------------------------------------------------------------
  // find_by_source

  /**
   * `provider = p AND ((provider = 'ONS' AND series_id = id) OR (provider = 'OECD' AND subject = id))`
   * over enabled rows.
   */
  predicate SourceMatches(c: SourceConfig, provider: string, sourceSeriesId: string) {
    c.enabled && c.provider == provider
    && ((c.provider == "ONS" && c.seriesId == Some(sourceSeriesId))
        || (c.provider == "OECD" && c.subject == Some(sourceSeriesId)))
  }

  /** `find_by_source(source, source_series_id)`: at most one matching row (`LIMIT 1`). */
  function FindBySource(table: seq<SourceConfig>, source: string, sourceSeriesId: string): (r: Option<SourceConfig>)
    ensures r.Some? ==> r.value in table && SourceMatches(r.value, Upper(source), sourceSeriesId)
    ensures r.None? <==> forall c :: c in table ==> !SourceMatches(c, Upper(source), sourceSeriesId)
  {
    First(table, c => SourceMatches(c, Upper(source), sourceSeriesId))
  }

  /**
   * The source name is matched regardless of its case; an ONS row is found by its
   * `series_id` and an OECD row by its `subject`, and no other provider is ever found.
   */
  lemma FindBySourceRules(table: seq<SourceConfig>, source: string, sourceSeriesId: string)
    ensures FindBySource(table, source, sourceSeriesId) == FindBySource(table, Upper(source), sourceSeriesId)
    ensures FindBySource(table, source, sourceSeriesId).Some? ==>
      var c := FindBySource(table, source, sourceSeriesId).value;
      c.enabled && (Upper(source) == "ONS" ==> c.seriesId == Some(sourceSeriesId))
                && (Upper(source) == "OECD" ==> c.subject == Some(sourceSeriesId))
    ensures Upper(source) != "ONS" && Upper(source) != "OECD" ==> FindBySource(table, source, sourceSeriesId).None?
  {
    UpperIdempotent(source);
  }
}
