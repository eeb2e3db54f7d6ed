/**
 * The briefing orchestrator: creating a briefing from a data pack and a generated
 * document, editing it through chat into a new version, comments, exports and the
 * briefing detail view, as sequences of writes to the briefing tables.
 */
module BriefingService {
  import opened Base
  import opened Schemas
  import opened DataPack
  import opened Llm
  import opened BriefingRepo

  // ---------------------------------------------------------------------------------
  // Titles and edit results

  /** `str.title()` from a position whose predecessor is (or is not) a letter. */
  function TitleFrom(s: string, afterLetter: bool): (r: string)
    ensures |r| == |s|
  {
    if s == [] then ""
    else
      var c := s[0];
      [if IsLetter(c) then (if afterLetter then LowerChar(c) else UpperChar(c)) else c]
      + TitleFrom(s[1..], IsLetter(c))
  }

  /** `s.title()` */
  function TitleCase(s: string): (r: string)
    ensures |r| == |s|
  {
    TitleFrom(s, false)
  }

  lemma {:induction false} TitleFromAt(s: string, afterLetter: bool, i: nat)
    requires i < |s|
    ensures var before := if i == 0 then afterLetter else IsLetter(s[i - 1]);
      TitleFrom(s, afterLetter)[i] ==
        if IsLetter(s[i]) then (if before then LowerChar(s[i]) else UpperChar(s[i])) else s[i]
  {
    if i > 0 {
      TitleFromAt(s[1..], IsLetter(s[0]), i - 1);
      assert s[1..][i - 1] == s[i];
      if i > 1 {
        assert s[1..][i - 2] == s[i - 1];
      }
    }
  }

  /**
   * Title case: a letter is upper-cased when it starts a word (the string or a non-letter
   * precedes it) and lower-cased otherwise; every other character is kept.
   */
  lemma TitleCaseAt(s: string, i: nat)
    requires i < |s|
    ensures TitleCase(s)[i] ==
      if IsLetter(s[i]) then (if i > 0 && IsLetter(s[i - 1]) then LowerChar(s[i]) else UpperChar(s[i])) else s[i]
  {
    TitleFromAt(s, false, i);
  }

  const BriefingSuffix: string := " briefing"

  /**
   * `llm_response.get("briefing_meta", {}).get("title") or f"{topic.title()} briefing"`:
   * never empty.
   */
  function BriefingTitle(response: Json, topic: string): (r: string)
    ensures |r| > 0
    ensures var t := Get(GetOr(response, "briefing_meta", JObj([])), "title");
      r == (if t.JStr? && t.s != "" then t.s else TitleCase(topic) + BriefingSuffix)
  {
    var t := Get(GetOr(response, "briefing_meta", JObj([])), "title");
    if t.JStr? && t.s != "" then t.s else TitleCase(topic) + BriefingSuffix
  }

  const DefaultChangeSummary: string := "Applied requested edits."

  /** `llm_response.get("change_summary") or "Applied requested edits."`: never empty. */
  function ChangeSummaryOf(response: Json): (r: string)
    ensures |r| > 0
    ensures Get(response, "change_summary").JStr? && Get(response, "change_summary").s != "" ==>
      r == Get(response, "change_summary").s
    ensures !Truthy(Get(response, "change_summary")) ==> r == DefaultChangeSummary
  {
    var c := Get(response, "change_summary");
    if c.JStr? && c.s != "" then c.s else DefaultChangeSummary
  }

  /** `llm_response.get("updated_briefing") or current_version["content_json"]` */
  function UpdatedContent(response: Json, current: Json): (r: Json)
    ensures Truthy(Get(response, "updated_briefing")) ==> r == Get(response, "updated_briefing")
    ensures !Truthy(Get(response, "updated_briefing")) ==> r == current
  {
    JOr(Get(response, "updated_briefing"), current)
  }

  // ---------------------------------------------------------------------------------
  // Resolving the version a chat edit starts from

  const BriefingNotFound: string := "Briefing not found."
  const NoVersions: string := "No versions exist for this briefing."
  const VersionNotFound: string := "Version not found."

  /**
   * The checks at the head of `handle_chat`: the briefing must exist, the target version
   * defaults to its latest version and must exist, and the version must belong to this
   * briefing.
   */
  function ChatBase(bs: seq<Briefing>, vs: seq<Version>, briefingId: Id, target: Option<Id>): (r: Result<Version>)
    ensures r == Err(BriefingNotFound) <==> FindBriefing(bs, briefingId).None?
    ensures r == Err(NoVersions) <==>
      FindBriefing(bs, briefingId).Some? && target.None? && FindBriefing(bs, briefingId).value.latestVersionId.None?
    ensures r.Ok? <==>
      FindBriefing(bs, briefingId).Some?
      && (target.Some? || FindBriefing(bs, briefingId).value.latestVersionId.Some?)
      && FindVersion(vs, briefingId, if target.Some? then target.value else FindBriefing(bs, briefingId).value.latestVersionId.value).Some?
    ensures r.Ok? ==> r.value in vs && r.value.briefingId == briefingId
    ensures r.Ok? ==> (FindBriefing(bs, briefingId).Some?
      && r.value.id == (if target.Some? then target.value else FindBriefing(bs, briefingId).value.latestVersionId.value))
    ensures r.Err? ==> r.error in {BriefingNotFound, NoVersions, VersionNotFound}
    ensures r == Err(VersionNotFound) <==>
      FindBriefing(bs, briefingId).Some?
      && (target.Some? || FindBriefing(bs, briefingId).value.latestVersionId.Some?)
      && FindVersion(vs, briefingId, if target.Some? then target.value else FindBriefing(bs, briefingId).value.latestVersionId.value).None?
  {
    match FindBriefing(bs, briefingId)
    case None => Err(BriefingNotFound)
    case Some(b) =>
      var versionId := if target.Some? then target else b.latestVersionId;
      if versionId.None? then Err(NoVersions)
      else
        match FindVersion(vs, briefingId, versionId.value)
        case None => Err(VersionNotFound)
        case Some(v) => Ok(v)
  }

  /** Pointing a briefing at a version is what a later lookup of that briefing sees. */
  lemma SetLatestFound(bs: seq<Briefing>, b: Id, v: Id)
    requires FindBriefing(bs, b).Some?
    ensures FindBriefing(SetLatest(bs, b, v), b) == Some(FindBriefing(bs, b).value.(latestVersionId := Some(v)))
  {
    var p := (x: Briefing) => x.id == b;
    var bs' := SetLatest(bs, b, v);
    FirstIndexAgree(bs, p, bs', p);
  }

  // ---------------------------------------------------------------------------------
  // The writes of a creation and of an edit

  /** The four briefing tables and the identifier sequence they share. */
  datatype Tables = Tables(
    briefings: seq<Briefing>, versions: seq<Version>, chat: seq<ChatMessage>, comments: seq<Comment>, nextId: nat)

  function TablesOf(store: BriefingStore): Tables
    reads store
  {
    Tables(store.briefings, store.versions, store.chat, store.comments, store.nextId)
  }

  const InitialAssistantMessage: string := "Generated initial briefing."

  /**
   * What `create_briefing` writes: a briefing, its first version (no change summary), the
   * pointer to that version, and a user and an assistant message both referencing it.
   */
  predicate Created(
    t: Tables, t': Tables, title: string, topic: string, userId: string,
    inputSpec: Json, packDoc: Json, content: Json, userRequest: string)
  {
    var bid := t.nextId;
    var vid := bid + 1;
    t'.briefings == SetLatest(t.briefings + [Briefing(bid, title, topic, userId, None)], bid, vid)
    && t'.versions == t.versions + [Version(vid, bid, NextVersionNumber(t.versions, bid), userId, inputSpec, packDoc, content, None)]
    && t'.chat == t.chat + [
         ChatMessage(vid + 1, bid, "user", userRequest, Some(vid)),
         ChatMessage(vid + 2, bid, "assistant", InitialAssistantMessage, Some(vid))]
    && t'.comments == t.comments
    && t'.nextId == t.nextId + 4
  }

  /**
   * What `handle_chat` writes after a successful edit: a version copying the base's input
   * and data pack with the new content and change summary, the pointer to it, the user's
   * message against the base version and the summary against the new one.
   */
  predicate Edited(
    t: Tables, t': Tables, briefingId: Id, userId: string, base: Version,
    content: Json, changeSummary: string, message: string)
  {
    var nid := t.nextId;
    t'.versions == t.versions + [Version(nid, briefingId, NextVersionNumber(t.versions, briefingId), userId,
                                         base.inputSpec, base.dataPack, content, Some(changeSummary))]
    && t'.briefings == SetLatest(t.briefings, briefingId, nid)
    && t'.chat == t.chat + [
         ChatMessage(nid + 1, briefingId, "user", message, Some(base.id)),
         ChatMessage(nid + 2, briefingId, "assistant", changeSummary, Some(nid))]
    && t'.comments == t.comments
    && t'.nextId == t.nextId + 3
  }

  /** After a creation the new briefing points at the new version. */
  lemma CreatedPointsLatest(
    t: Tables, t': Tables, title: string, topic: string, userId: string,
    inputSpec: Json, packDoc: Json, content: Json, userRequest: string)
    requires forall x :: x in t.briefings ==> x.id < t.nextId
    requires Created(t, t', title, topic, userId, inputSpec, packDoc, content, userRequest)
    ensures FindBriefing(t'.briefings, t.nextId) == Some(Briefing(t.nextId, title, topic, userId, Some(t.nextId + 1)))
    ensures |VersionsOf(t'.versions, t.nextId)| == |VersionsOf(t.versions, t.nextId)| + 1
  {
    var b := Briefing(t.nextId, title, topic, userId, None);
    var bs := t.briefings + [b];
    assert FindBriefing(bs, t.nextId) == Some(b) by {
      assert bs[|bs| - 1] == b;
    }
    SetLatestFound(bs, t.nextId, t.nextId + 1);
    VersionsOfSnoc(t.versions, t'.versions[|t.versions|], t.nextId);
    assert t'.versions == t.versions + [t'.versions[|t.versions|]];
  }

  /** After an edit the briefing points at the new version and has one more version. */
  lemma EditedPointsLatest(
    t: Tables, t': Tables, briefingId: Id, userId: string, base: Version,
    content: Json, changeSummary: string, message: string)
    requires FindBriefing(t.briefings, briefingId).Some?
    requires Edited(t, t', briefingId, userId, base, content, changeSummary, message)
    ensures FindBriefing(t'.briefings, briefingId) == Some(FindBriefing(t.briefings, briefingId).value.(latestVersionId := Some(t.nextId)))
    ensures |VersionsOf(t'.versions, briefingId)| == |VersionsOf(t.versions, briefingId)| + 1
  {
    SetLatestFound(t.briefings, briefingId, t.nextId);
    VersionsOfSnoc(t.versions, t'.versions[|t.versions|], briefingId);
    assert t'.versions == t.versions + [t'.versions[|t.versions|]];
  }

  // ---------------------------------------------------------------------------------
  // Results

  datatype CreateResult = CreateResult(briefingId: Id, versionId: Id, renderModel: Json)
  datatype ChatResult = ChatResult(briefingId: Id, newVersionId: Id, changeSummary: string, renderModel: Json)
  datatype CommentResult = CommentResult(commentId: Id, status: string)
  datatype VersionEntry = VersionEntry(id: Id, versionNumber: int, createdBy: string, changeSummary: Option<string>)
  datatype BriefingDetail = BriefingDetail(briefing: Briefing, versions: seq<VersionEntry>)

  function EntryOf(v: Version): VersionEntry {
    VersionEntry(v.id, v.versionNumber, v.createdBy, v.changeSummary)
  }

  /** The detail view: one entry per version, in the order the rows are listed. */
  function Entries(vs: seq<Version>): (r: seq<VersionEntry>)
    ensures |r| == |vs|
    ensures forall i :: 0 <= i < |vs| ==> r[i] == EntryOf(vs[i])
  {
    seq(|vs|, i requires 0 <= i < |vs| => EntryOf(vs[i]))
  }

  /**
   * `BriefingService`, over the briefing tables and the language-model wrapper. `packJson`
   * stands for the JSON form in which the data pack is stored and sent to the model.
   */
  class BriefingService {
    const store: BriefingStore
    const llm: LlmService
    const packJson: DataPack -> Json

    constructor(store: BriefingStore, llm: LlmService, packJson: DataPack -> Json)
      ensures this.store == store && this.llm == llm && this.packJson == packJson
    {
      this.store := store;
      this.llm := llm;
      this.packJson := packJson;
    }

    /**
     * `create_briefing(request, user_id)`: builds the data pack, asks the model (or the
     * cache) for the document, then makes the writes `Created` describes, titled from the
     * document or the topic. A cached document is used as it is; on a miss the model's
     * answer is cached, and nothing is written when it cannot be parsed.
     */
    method CreateBriefing(
      request: CreateBriefingRequest, userId: string, env: PackEnv,
      hash: (string, seq<SeriesPayload>) -> string, reply: Result<Json>)
      returns (r: Result<CreateResult>)
      requires store.Valid()
      modifies store, llm
      ensures store.Valid()
      ensures r.Err? ==> TablesOf(store) == old(TablesOf(store))
      ensures
        var pack := packJson(PackFor(request.topic, request.selectedSeries, request.options, env, hash));
        var key := HashKey(CreateMode, CreatePayload(request.userRequest, OptionsJson(request.options), request.topic, pack), llm.dumps);
        var prompt := llm.promptCreate(request.userRequest, OptionsJson(request.options), request.topic, pack);
        var answer := if key in old(llm.cache) then Ok(old(llm.cache)[key]) else llm.Answer(prompt, reply);
        (r.Err? <==> answer.Err?)
        && (r.Err? ==> r.error == answer.error && llm.cache == old(llm.cache))
        && (r.Ok? ==> r.value.renderModel == answer.value && llm.cache == old(llm.cache)[key := answer.value])
        && llm.modelCalls == old(llm.modelCalls) + (if key !in old(llm.cache) && llm.hasClient then [prompt] else [])
      ensures r.Ok? ==>
        var pack := packJson(PackFor(request.topic, request.selectedSeries, request.options, env, hash));
        var content := r.value.renderModel;
        var key := HashKey(CreateMode, CreatePayload(request.userRequest, OptionsJson(request.options), request.topic, pack), llm.dumps);
        r.value.briefingId == old(store.nextId) && r.value.versionId == old(store.nextId) + 1
        && key in llm.cache && llm.cache[key] == content
        && Created(old(TablesOf(store)), TablesOf(store), BriefingTitle(content, request.topic), request.topic, userId,
                   RequestJson(request), pack, content, request.userRequest)
    {
      var dataPack := BuildDataPack(request.topic, request.selectedSeries, request.options, env, hash);
      var packDoc := packJson(dataPack);
      var response := llm.CreateBriefing(request.userRequest, OptionsJson(request.options), request.topic, packDoc, reply);
      if response.Err? {
        return Err(response.error);
      }
      var content := response.value;
      assert TablesOf(store) == old(TablesOf(store));
      var briefingId, versionId := RecordCreation(
        BriefingTitle(content, request.topic), request.topic, userId, RequestJson(request), packDoc, content, request.userRequest);
      r := Ok(CreateResult(briefingId, versionId, content));
    }

    /** The writes of a successful creation, in the order `create_briefing` makes them. */
    method RecordCreation(
      title: string, topic: string, userId: string, inputSpec: Json, packDoc: Json, content: Json, userRequest: string)
      returns (briefingId: Id, versionId: Id)
      requires store.Valid()
      modifies store
      ensures store.Valid()
      ensures briefingId == old(store.nextId) && versionId == briefingId + 1
      ensures Created(old(TablesOf(store)), TablesOf(store), title, topic, userId, inputSpec, packDoc, content, userRequest)
    {
      var briefing := store.CreateBriefing(title, topic, userId);
      var version := store.InsertVersion(briefing.id, userId, inputSpec, packDoc, content, None);
      store.UpdateLatestVersion(briefing.id, version.id);
      var _ := store.InsertChatMessage(briefing.id, "user", userRequest, Some(version.id));
      var _ := store.InsertChatMessage(briefing.id, "assistant", InitialAssistantMessage, Some(version.id));
      briefingId, versionId := briefing.id, version.id;
    }

    /**
     * `handle_chat(briefing_id, request, user_id)`: resolves the base version, asks for the
     * edit, and makes the writes `Edited` describes, with the edited content (or the base
     * content) and the change summary the reply gives. On any error nothing is written.
     */
    method HandleChat(briefingId: Id, request: ChatRequest, userId: string, reply: Result<Json>)
      returns (r: Result<ChatResult>)
      requires store.Valid()
      modifies store, llm
      ensures store.Valid()
      ensures ChatBase(old(store.briefings), old(store.versions), briefingId, request.targetVersionId).Err? ==>
        r == Err(ChatBase(old(store.briefings), old(store.versions), briefingId, request.targetVersionId).error)
        && llm.cache == old(llm.cache) && llm.modelCalls == old(llm.modelCalls)
      ensures r.Err? ==> TablesOf(store) == old(TablesOf(store))
      ensures ChatBase(old(store.briefings), old(store.versions), briefingId, request.targetVersionId).Ok? ==>
        var base := ChatBase(old(store.briefings), old(store.versions), briefingId, request.targetVersionId).value;
        var key := HashKey(EditMode, EditPayload(request.message, base.contentJson, base.dataPack), llm.dumps);
        var prompt := llm.promptEdit(request.message, base.contentJson, base.dataPack);
        var answer := if key in old(llm.cache) then Ok(old(llm.cache)[key]) else llm.Answer(prompt, reply);
        (r.Err? <==> answer.Err?)
        && (r.Err? ==> r.error == answer.error && llm.cache == old(llm.cache))
        && (r.Ok? ==> (llm.cache == old(llm.cache)[key := answer.value]
                       && r.value.renderModel == UpdatedContent(answer.value, base.contentJson)
                       && r.value.changeSummary == ChangeSummaryOf(answer.value)))
        && llm.modelCalls == old(llm.modelCalls) + (if key !in old(llm.cache) && llm.hasClient then [prompt] else [])
      ensures r.Ok? ==>
        var base := ChatBase(old(store.briefings), old(store.versions), briefingId, request.targetVersionId).value;
        var key := HashKey(EditMode, EditPayload(request.message, base.contentJson, base.dataPack), llm.dumps);
        r.value.briefingId == briefingId && r.value.newVersionId == old(store.nextId)
        && key in llm.cache
        && r.value.renderModel == UpdatedContent(llm.cache[key], base.contentJson)
        && r.value.changeSummary == ChangeSummaryOf(llm.cache[key])
        && Edited(old(TablesOf(store)), TablesOf(store), briefingId, userId, base, r.value.renderModel, r.value.changeSummary, request.message)
    {
      var resolved := ChatBase(store.briefings, store.versions, briefingId, request.targetVersionId);
      if resolved.Err? {
        return Err(resolved.error);
      }
      var current := resolved.value;
      var response := llm.EditBriefing(request.message, current.contentJson, current.dataPack, reply);
      if response.Err? {
        return Err(response.error);
      }
      var updated := UpdatedContent(response.value, current.contentJson);
      var changeSummary := ChangeSummaryOf(response.value);
      assert TablesOf(store) == old(TablesOf(store));
      var newVersionId := RecordEdit(briefingId, userId, current, updated, changeSummary, request.message);
      r := Ok(ChatResult(briefingId, newVersionId, changeSummary, updated));
    }

    /** The writes of a successful chat edit, in the order `handle_chat` makes them. */
    method RecordEdit(briefingId: Id, userId: string, base: Version, updated: Json, changeSummary: string, message: string)
      returns (newVersionId: Id)
      requires store.Valid()
      modifies store
      ensures store.Valid()
      ensures newVersionId == old(store.nextId)
      ensures Edited(old(TablesOf(store)), TablesOf(store), briefingId, userId, base, updated, changeSummary, message)
    {
      var newVersion := store.InsertVersion(briefingId, userId, base.inputSpec, base.dataPack, updated, Some(changeSummary));
      store.UpdateLatestVersion(briefingId, newVersion.id);
      var _ := store.InsertChatMessage(briefingId, "user", message, Some(base.id));
      var _ := store.InsertChatMessage(briefingId, "assistant", changeSummary, Some(newVersion.id));
      newVersionId := newVersion.id;
    }

    /** `get_version(briefing_id, version_id)`: only a version of that briefing is returned. */
    function GetVersion(briefingId: Id, versionId: Id): (r: Result<Version>)
      reads store
      ensures r.Ok? ==> r.value in store.versions && r.value.briefingId == briefingId && r.value.id == versionId
      ensures r.Err? <==> forall x :: x in store.versions ==> !(x.briefingId == briefingId && x.id == versionId)
      ensures r.Err? ==> r.error == VersionNotFound
    {
      match FindVersion(store.versions, briefingId, versionId)
      case None => Err(VersionNotFound)
      case Some(v) => Ok(v)
    }

    /**
     * `export_pdf(briefing_id, version_id)` up to rendering: the content handed to the PDF
     * renderer, which exists only for a version of that briefing.
     */
    function ExportContent(briefingId: Id, versionId: Id): (r: Result<Json>)
      reads store
      ensures r.Ok? <==> exists x :: x in store.versions && x.briefingId == briefingId && x.id == versionId
      ensures r.Ok? ==> exists x :: x in store.versions && x.briefingId == briefingId && x.id == versionId && r.value == x.contentJson
      ensures r.Err? ==> r.error == VersionNotFound
    {
      match FindVersion(store.versions, briefingId, versionId)
      case None => Err(VersionNotFound)
      case Some(v) => Ok(v.contentJson)
    }

    /**
     * `add_comment(briefing_id, comment_request, user_id)`: a comment is written only when
     * the briefing exists and the version belongs to it.
     */
    method AddComment(briefingId: Id, request: CommentCreateRequest, userId: string)
      returns (r: Result<CommentResult>)
      requires store.Valid()
      modifies store
      ensures store.Valid()
      ensures FindBriefing(old(store.briefings), briefingId).None? ==> r == Err(BriefingNotFound)
      ensures FindBriefing(old(store.briefings), briefingId).Some? && FindVersion(old(store.versions), briefingId, request.versionId).None?
        ==> r == Err(VersionNotFound)
      ensures r.Err? ==> store.comments == old(store.comments)
      ensures r.Ok? <==> FindBriefing(old(store.briefings), briefingId).Some? && FindVersion(old(store.versions), briefingId, request.versionId).Some?
      ensures r.Ok? ==>
        r.value == CommentResult(old(store.nextId), store.commentStatus)
        && store.comments == old(store.comments) + [Comment(old(store.nextId), request.versionId, userId, request.anchor, request.commentText, store.commentStatus)]
      ensures store.briefings == old(store.briefings) && store.versions == old(store.versions) && store.chat == old(store.chat)
    {
      if store.GetBriefing(briefingId).None? {
        return Err(BriefingNotFound);
      }
      if store.GetVersion(briefingId, request.versionId).None? {
        return Err(VersionNotFound);
      }
      var comment := store.InsertComment(request.versionId, userId, request.anchor, request.commentText);
      r := Ok(CommentResult(comment.id, comment.status));
    }

    /** `get_briefing_detail(briefing_id)`: the briefing and one entry per version, newest first. */
    function GetBriefingDetail(briefingId: Id): (r: Result<BriefingDetail>)
      reads store
      ensures r.Err? <==> FindBriefing(store.briefings, briefingId).None?
      ensures r.Ok? ==> r.value.briefing == FindBriefing(store.briefings, briefingId).value
      ensures r.Ok? ==> |r.value.versions| == |VersionsOf(store.versions, briefingId)|
      ensures r.Ok? ==> forall i :: 0 <= i < |r.value.versions| ==> r.value.versions[i] == EntryOf(store.ListVersions(briefingId)[i])
    {
      match FindBriefing(store.briefings, briefingId)
      case None => Err(BriefingNotFound)
      case Some(b) => Ok(BriefingDetail(b, Entries(store.ListVersions(briefingId))))
    }
  }
}
