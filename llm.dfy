/**
 * The language-model wrapper: the deterministic fallback document returned when no model
 * client is configured, the memo cache keyed by mode and payload, and the create and edit
 * calls that consult it.
 */
module Llm {
  import opened Base

  // ---------------------------------------------------------------------------------
  // The fallback document

  /** The fallback banner summary, including the mis-encoded dash the source carries. */
  const FallbackSummary: string := "LLM unavailable \U{E2}\U{20AC}\U{201D} generated deterministic structure."
  const FallbackDetail: string := "Used server-side fallback content."

  /** How much of the prompt the fallback echoes. */
  const EchoLimit: nat := 400

  const Fence: string := "```text\n"
  const FenceEnd: string := "\n```"

  /** `f"```text\n{user_prompt[:400]}\n```"` */
  function ExportMarkdown(userPrompt: string): string {
    Fence + Take(userPrompt, EchoLimit) + FenceEnd
  }

  const FallbackMeta: Json := JObj([
    ("title", JStr("Data-only briefing")), ("topic", JStr("unknown")), ("as_of", JStr("latest")),
    ("tone", JStr("ministerial")), ("length", JStr("one_page"))])

  const FallbackCheck: Json := JObj([
    ("name", JStr("llm_fallback")), ("ok", JBool(false)), ("detail", JStr(FallbackDetail))])

  const FallbackBanner: Json := JObj([
    ("status", JStr("amber")), ("summary", JStr(FallbackSummary)), ("checks", JArr([FallbackCheck]))])

  /** `_fallback_response(user_prompt)` */
  function Fallback(userPrompt: string): Json {
    JObj([
      ("briefing_meta", FallbackMeta),
      ("quality_banner", FallbackBanner),
      ("sections", JArr([])),
      ("recommended_charts", JArr([])),
      ("export_markdown", JStr(ExportMarkdown(userPrompt)))])
  }

  /**
   * The fallback is amber with the single failing `llm_fallback` check, has no sections
   * and no charts, and is titled "Data-only briefing".
   */
  lemma FallbackShape(userPrompt: string)
    ensures var banner := Get(Fallback(userPrompt), "quality_banner");
      Get(banner, "status") == JStr("amber")
      && Get(banner, "checks") == JArr([FallbackCheck])
      && Get(FallbackCheck, "name") == JStr("llm_fallback") && Get(FallbackCheck, "ok") == JBool(false)
      && Get(Fallback(userPrompt), "sections") == JArr([])
      && Get(Fallback(userPrompt), "recommended_charts") == JArr([])
      && Get(Get(Fallback(userPrompt), "briefing_meta"), "title") == JStr("Data-only briefing")
  {
    var f := Fallback(userPrompt).fields;
    FallbackKeys(userPrompt);
    GetUnique(f, 0);
    GetUnique(f, 1);
    GetUnique(f, 2);
    GetUnique(f, 3);
    MetaTitle();
    BannerParts();
    CheckParts();
  }

  lemma FallbackKeys(userPrompt: string)
    ensures UniqueKeys(Fallback(userPrompt).fields)
    ensures Fallback(userPrompt).fields[0].0 == "briefing_meta" && Fallback(userPrompt).fields[1].0 == "quality_banner"
    ensures Fallback(userPrompt).fields[2].0 == "sections" && Fallback(userPrompt).fields[3].0 == "recommended_charts"
    ensures Fallback(userPrompt).fields[4].0 == "export_markdown"
  {
  }

  lemma MetaTitle()
    ensures Get(FallbackMeta, "title") == JStr("Data-only briefing")
  {
    GetUnique(FallbackMeta.fields, 0);
  }

  lemma BannerParts()
    ensures Get(FallbackBanner, "status") == JStr("amber") && Get(FallbackBanner, "checks") == JArr([FallbackCheck])
  {
    assert UniqueKeys(FallbackBanner.fields);
    GetUnique(FallbackBanner.fields, 0);
    GetUnique(FallbackBanner.fields, 2);
  }

  lemma CheckParts()
    ensures Get(FallbackCheck, "name") == JStr("llm_fallback") && Get(FallbackCheck, "ok") == JBool(false)
  {
    assert UniqueKeys(FallbackCheck.fields);
    GetUnique(FallbackCheck.fields, 0);
    GetUnique(FallbackCheck.fields, 1);
  }

  /**
   * The exported markdown is a text fence around the first 400 characters of the prompt,
   * or the whole prompt when it is shorter.
   */
  lemma FallbackEcho(userPrompt: string)
    ensures var n := if |userPrompt| <= EchoLimit then |userPrompt| else EchoLimit;
      Get(Fallback(userPrompt), "export_markdown") == JStr(Fence + userPrompt[..n] + FenceEnd)
  {
    var n := if |userPrompt| <= EchoLimit then |userPrompt| else EchoLimit;
    assert Take(userPrompt, EchoLimit) == userPrompt[..n];
    FallbackKeys(userPrompt);
    GetUnique(Fallback(userPrompt).fields, 4);
  }

  // ---------------------------------------------------------------------------------
  // Cache keys

  const CreateMode: string := "CREATE_BRIEFING"
  const EditMode: string := "EDIT_BRIEFING"

  /**
   * `_hash_key(mode, payload)`. `dumps` stands for `json.dumps(payload, sort_keys=True)`;
   * the SHA-256 digest is taken to be collision-free, so the key is modelled by the text
   * that is hashed.
   */
  function HashKey(mode: string, payload: Json, dumps: Json -> string): string {
    mode + ":" + dumps(payload)
  }

  function CreatePayload(userRequest: string, options: Json, topic: string, dataPack: Json): Json {
    JObj([("user_request", JStr(userRequest)), ("options", options), ("topic", JStr(topic)), ("data_pack", dataPack)])
  }

  function EditPayload(editMessage: string, currentBriefing: Json, dataPack: Json): Json {
    JObj([("edit_message", JStr(editMessage)), ("current_briefing", currentBriefing), ("data_pack", dataPack)])
  }

  /** A create key never equals an edit key, whatever the two payloads. */
  lemma ModesDistinct(p: Json, q: Json, dumps: Json -> string)
    ensures HashKey(CreateMode, p, dumps) != HashKey(EditMode, q, dumps)
  {
    assert HashKey(CreateMode, p, dumps)[0] == 'C';
    assert HashKey(EditMode, q, dumps)[0] == 'E';
  }

  /** Within one mode, equal keys mean equal serialised payloads. */
  lemma KeyDeterminesPayload(mode: string, p: Json, q: Json, dumps: Json -> string)
    requires HashKey(mode, p, dumps) == HashKey(mode, q, dumps)
    ensures dumps(p) == dumps(q)
  {
    var k := |mode| + 1;
    assert HashKey(mode, p, dumps)[k..] == dumps(p);
    assert HashKey(mode, q, dumps)[k..] == dumps(q);
  }

  // ---------------------------------------------------------------------------------
  // The service

  /**
   * `LLMService`. `hasClient` says whether an API key was configured, `dumps` is the
   * sorted-key JSON serialisation and the two prompt builders stand for `_prompt_create`
   * and `_prompt_edit`. `modelCalls` records the prompts sent to the model, in order.
   */
  class LlmService {
    var cache: map<string, Json>
    var modelCalls: seq<string>
    const hasClient: bool
    const dumps: Json -> string
    const promptCreate: (string, Json, string, Json) -> string
    const promptEdit: (string, Json, Json) -> string

    constructor(
      hasClient: bool, dumps: Json -> string,
      promptCreate: (string, Json, string, Json) -> string, promptEdit: (string, Json, Json) -> string)
      ensures cache == map[] && modelCalls == []
      ensures this.hasClient == hasClient && this.dumps == dumps
      ensures this.promptCreate == promptCreate && this.promptEdit == promptEdit
    {
      cache := map[];
      modelCalls := [];
      this.hasClient := hasClient;
      this.dumps := dumps;
      this.promptCreate := promptCreate;
      this.promptEdit := promptEdit;
    }

    /**
     * What `_call_model` returns for a prompt: the fallback without a client, otherwise the
     * model's reply as parsed by `json.loads` (`Err` when it is not JSON).
     */
    function Answer(userPrompt: string, reply: Result<Json>): (r: Result<Json>)
      ensures !hasClient ==> r == Ok(Fallback(userPrompt))
      ensures hasClient ==> r == reply
    {
      if !hasClient then Ok(Fallback(userPrompt)) else reply
    }

    /** `_call_model(user_prompt)`: the model is asked only when a client is configured. */
    method CallModel(userPrompt: string, reply: Result<Json>) returns (r: Result<Json>)
      modifies this`modelCalls
      ensures r == Answer(userPrompt, reply)
      ensures modelCalls == old(modelCalls) + (if hasClient then [userPrompt] else [])
    {
      if !hasClient {
        return Ok(Fallback(userPrompt));
      }
      modelCalls := modelCalls + [userPrompt];
      r := reply;
    }

    /**
     * The memoised call both entry points share: a hit returns the stored response and
     * neither builds a prompt nor calls the model; a miss asks the model and stores the
     * response under the key.
     */
    method Memoised(key: string, userPrompt: string, reply: Result<Json>) returns (r: Result<Json>)
      modifies this
      ensures key in old(cache) ==> r == Ok(old(cache)[key]) && cache == old(cache) && modelCalls == old(modelCalls)
      ensures key !in old(cache) ==>
        r == Answer(userPrompt, reply)
        && modelCalls == old(modelCalls) + (if hasClient then [userPrompt] else [])
        && cache == (if r.Ok? then old(cache)[key := r.value] else old(cache))
      ensures r.Ok? ==> key in cache && cache[key] == r.value
    {
      if key in cache {
        return Ok(cache[key]);
      }
      r := CallModel(userPrompt, reply);
      if r.Ok? {
        cache := cache[key := r.value];
      }
    }

    /** `create_briefing(user_request, options, topic, data_pack)` */
    method CreateBriefing(userRequest: string, options: Json, topic: string, dataPack: Json, reply: Result<Json>)
      returns (r: Result<Json>)
      modifies this
      ensures var key := HashKey(CreateMode, CreatePayload(userRequest, options, topic, dataPack), dumps);
        (key in old(cache) ==> r == Ok(old(cache)[key]) && cache == old(cache) && modelCalls == old(modelCalls))
        && (key !in old(cache) ==>
              var prompt := promptCreate(userRequest, options, topic, dataPack);
              r == Answer(prompt, reply)
              && modelCalls == old(modelCalls) + (if hasClient then [prompt] else [])
              && cache == (if r.Ok? then old(cache)[key := r.value] else old(cache)))
      ensures r.Ok? ==> HashKey(CreateMode, CreatePayload(userRequest, options, topic, dataPack), dumps) in cache && cache[HashKey(CreateMode, CreatePayload(userRequest, options, topic, dataPack), dumps)] == r.value
    {
      var key := HashKey(CreateMode, CreatePayload(userRequest, options, topic, dataPack), dumps);
      var userPrompt := promptCreate(userRequest, options, topic, dataPack);
      r := Memoised(key, userPrompt, reply);
    }

    /** `edit_briefing(edit_message, current_briefing, data_pack)` */
    method EditBriefing(editMessage: string, currentBriefing: Json, dataPack: Json, reply: Result<Json>)
      returns (r: Result<Json>)
      modifies this
      ensures var key := HashKey(EditMode, EditPayload(editMessage, currentBriefing, dataPack), dumps);
        (key in old(cache) ==> r == Ok(old(cache)[key]) && cache == old(cache) && modelCalls == old(modelCalls))
        && (key !in old(cache) ==>
              var prompt := promptEdit(editMessage, currentBriefing, dataPack);
              r == Answer(prompt, reply)
              && modelCalls == old(modelCalls) + (if hasClient then [prompt] else [])
              && cache == (if r.Ok? then old(cache)[key := r.value] else old(cache)))
      ensures r.Ok? ==> HashKey(EditMode, EditPayload(editMessage, currentBriefing, dataPack), dumps) in cache && cache[HashKey(EditMode, EditPayload(editMessage, currentBriefing, dataPack), dumps)] == r.value
    {
      var key := HashKey(EditMode, EditPayload(editMessage, currentBriefing, dataPack), dumps);
      var userPrompt := promptEdit(editMessage, currentBriefing, dataPack);
      r := Memoised(key, userPrompt, reply);
    }
  }
}
