/**
 * The briefing tables: briefings with their `latest_version_id` pointer, the append-only
 * version chain numbered per briefing, the chat log and the version comments. Rows are
 * kept in insertion order, which is also their `created_at` order under sequential use.
 */
module BriefingRepo {
  import opened Base
  import opened Schemas

  datatype Briefing = Briefing(
    id: Id, title: string, topic: string, createdBy: string, latestVersionId: Option<Id>)

  datatype Version = Version(
    id: Id,
    briefingId: Id,
    versionNumber: int,
    createdBy: string,
    inputSpec: Json,
    dataPack: Json,
    contentJson: Json,
    changeSummary: Option<string>)

  datatype ChatMessage = ChatMessage(
    id: Id, briefingId: Id, role: string, message: string, versionId: Option<Id>)

  datatype Comment = Comment(
    id: Id, briefingVersionId: Id, createdBy: string, anchor: string, commentText: string, status: string)

  // ---------------------------------------------------------------------------------
  // The version chain of one briefing

  /** `WHERE briefing_id = b`, in insertion order. */
  function VersionsOf(vs: seq<Version>, b: Id): (r: seq<Version>)
    ensures |r| <= |vs|
  {
    if vs == [] then []
    else
      var last := vs[|vs| - 1];
      VersionsOf(vs[..|vs| - 1], b) + (if last.briefingId == b then [last] else [])
  }

  lemma VersionsOfSnoc(vs: seq<Version>, v: Version, b: Id)
    ensures VersionsOf(vs + [v], b) == VersionsOf(vs, b) + (if v.briefingId == b then [v] else [])
  {
    assert (vs + [v])[..|vs|] == vs;
  }

  /** Exactly the versions of the briefing are selected. */
  lemma {:induction false} VersionsOfMembers(vs: seq<Version>, b: Id)
    ensures forall v :: v in VersionsOf(vs, b) <==> v in vs && v.briefingId == b
  {
    if vs != [] {
      var init := vs[..|vs| - 1];
      VersionsOfMembers(init, b);
      assert vs == init + [vs[|vs| - 1]];
    }
  }

  /** `MAX(version_number)` over some rows: NULL (`None`) when there are none. */
  function MaxNumber(s: seq<Version>): (m: Option<int>)
    ensures m.None? <==> s == []
  {
    if s == [] then None
    else
      var x := s[|s| - 1].versionNumber;
      match MaxNumber(s[..|s| - 1])
      case None => Some(x)
      case Some(m) => Some(if x > m then x else m)
  }

  /** `_next_version_number`: `COALESCE(MAX(version_number), 0) + 1` over the briefing's rows. */
  function NextVersionNumber(vs: seq<Version>, b: Id): int {
    match MaxNumber(VersionsOf(vs, b))
    case None => 1
    case Some(m) => m + 1
  }

  /** A briefing's versions, in insertion order, are numbered 1, 2, 3, ... */
  predicate Consecutive(s: seq<Version>) {
    forall i :: 0 <= i < |s| ==> s[i].versionNumber == i + 1
  }

  /** Every briefing's version chain is numbered consecutively from 1. */
  ghost predicate Numbered(vs: seq<Version>) {
    forall b :: Consecutive(VersionsOf(vs, b))
  }

  /** Over a consecutively numbered chain the maximum is its length. */
  lemma {:induction false} MaxOfConsecutive(s: seq<Version>)
    requires Consecutive(s)
    ensures MaxNumber(s) == if s == [] then None else Some(|s|)
  {
    if s != [] {
      var init := s[..|s| - 1];
      assert Consecutive(init) by {
        forall i | 0 <= i < |init| ensures init[i].versionNumber == i + 1 {
          assert init[i] == s[i];
        }
      }
      MaxOfConsecutive(init);
    }
  }

  /** On a numbered table the next number of a briefing is one more than its number of versions. */
  lemma NextIsCount(vs: seq<Version>, b: Id)
    requires Numbered(vs)
    ensures NextVersionNumber(vs, b) == |VersionsOf(vs, b)| + 1
  {
    assert Consecutive(VersionsOf(vs, b));
    MaxOfConsecutive(VersionsOf(vs, b));
  }

  /** Appending a version with the next number keeps every chain numbered. */
  lemma AppendKeepsNumbered(vs: seq<Version>, v: Version)
    requires Numbered(vs)
    requires v.versionNumber == NextVersionNumber(vs, v.briefingId)
    ensures Numbered(vs + [v])
  {
    NextIsCount(vs, v.briefingId);
    forall b ensures Consecutive(VersionsOf(vs + [v], b)) {
      VersionsOfSnoc(vs, v, b);
      assert Consecutive(VersionsOf(vs, b));
    }
  }

  /** The version numbers of some rows, in order. */
  function Numbers(s: seq<Version>): (r: seq<int>)
    ensures |r| == |s|
  {
    seq(|s|, i requires 0 <= i < |s| => s[i].versionNumber)
  }

  /**
   * Gapless numbering: on a numbered table the version numbers of a briefing, in insertion
   * order, are exactly 1, 2, ..., N, where N is its number of versions, so no two of its
   * versions share one.
   */
  lemma Gapless(vs: seq<Version>, b: Id)
    requires Numbered(vs)
    ensures var s := VersionsOf(vs, b);
      Numbers(s) == seq(|s|, i => i + 1)
      && forall i, j :: 0 <= i < j < |s| ==> s[i].versionNumber != s[j].versionNumber
  {
    var s := VersionsOf(vs, b);
    assert Consecutive(s);
  }

  /**
   * `list_versions`: the briefing's rows in reverse insertion order are exactly its
   * versions, and on a numbered table they go by descending `version_number`, from N
   * down to 1.
   */
  lemma ListVersionsOrder(vs: seq<Version>, b: Id)
    ensures var r := Reverse(VersionsOf(vs, b));
      (forall v :: v in r <==> v in vs && v.briefingId == b)
      && (Numbered(vs) ==>
            (forall i :: 0 <= i < |r| ==> r[i].versionNumber == |r| - i)
            && (forall i, j :: 0 <= i < j < |r| ==> r[i].versionNumber > r[j].versionNumber))
  {
    var s := VersionsOf(vs, b);
    var r := Reverse(s);
    forall i | 0 <= i < |r| ensures r[i] == s[|s| - 1 - i] {
      ReverseAt(s, i);
    }
    if Numbered(vs) {
      assert Consecutive(s);
    }
    VersionsOfMembers(vs, b);
    forall v ensures v in r <==> v in s {
      if v in s {
        var k :| 0 <= k < |s| && s[k] == v;
        assert r[|s| - 1 - k] == v;
      }
    }
  }

  // ---------------------------------------------------------------------------------
  // The latest-version pointer

  /** `UPDATE briefings SET latest_version_id = v WHERE id = b` */
  function SetLatest(bs: seq<Briefing>, b: Id, v: Id): (r: seq<Briefing>)
    ensures |r| == |bs|
  {
    seq(|bs|, i requires 0 <= i < |bs| => if bs[i].id == b then bs[i].(latestVersionId := Some(v)) else bs[i])
  }

  /** The update points the named briefing at the version and changes nothing else. */
  lemma SetLatestOnly(bs: seq<Briefing>, b: Id, v: Id)
    ensures forall i :: 0 <= i < |bs| && bs[i].id == b ==>
      SetLatest(bs, b, v)[i] == Briefing(bs[i].id, bs[i].title, bs[i].topic, bs[i].createdBy, Some(v))
    ensures forall i :: 0 <= i < |bs| && bs[i].id != b ==> SetLatest(bs, b, v)[i] == bs[i]
  {
  }

  // ---------------------------------------------------------------------------------
  // Lookups

  /** `SELECT * FROM briefing_versions WHERE briefing_id = b AND id = v` */
  function FindVersion(vs: seq<Version>, b: Id, v: Id): (r: Option<Version>)
    ensures r.Some? ==> r.value in vs && r.value.briefingId == b && r.value.id == v
    ensures r.None? <==> forall x :: x in vs ==> !(x.briefingId == b && x.id == v)
  {
    First(vs, (x: Version) => x.briefingId == b && x.id == v)
  }

  /** Another briefing's version is never returned, whatever its id. */
  lemma FindVersionScoped(vs: seq<Version>, b: Id, v: Id, x: Version)
    requires x in vs && x.id == v && x.briefingId != b
    requires forall i, j :: 0 <= i < j < |vs| ==> vs[i].id != vs[j].id
    ensures FindVersion(vs, b, v).None?
  {
  }

  function FindBriefing(bs: seq<Briefing>, b: Id): (r: Option<Briefing>)
    ensures r.Some? ==> r.value in bs && r.value.id == b
    ensures r.None? <==> forall x :: x in bs ==> x.id != b
  {
    First(bs, (x: Briefing) => x.id == b)
  }

  /** A briefing's messages: the table read at increasing positions, exactly the briefing's ones. */
  function ChatOf(m: seq<ChatMessage>, b: Id): (r: seq<ChatMessage>)
    ensures exists idx :: ReadAtIncreasing(r, m, idx) && forall j :: 0 <= j < |m| ==> (j in idx <==> m[j].briefingId == b)
    ensures forall x :: x in r <==> x in m && x.briefingId == b
  {
    var inBriefing := (x: ChatMessage) => x.briefingId == b;
    var idx := FilterPositions(m, inBriefing);
    Filter(m, inBriefing)
  }

  /** A version's comments: the table read at increasing positions, exactly the version's ones. */
  function CommentsOf(cs: seq<Comment>, v: Id): (r: seq<Comment>)
    ensures exists idx :: ReadAtIncreasing(r, cs, idx) && forall j :: 0 <= j < |cs| ==> (j in idx <==> cs[j].briefingVersionId == v)
    ensures forall x :: x in r <==> x in cs && x.briefingVersionId == v
  {
    var ofVersion := (x: Comment) => x.briefingVersionId == v;
    var idx := FilterPositions(cs, ofVersion);
    Filter(cs, ofVersion)
  }

  /** The default page size of `list_chat_messages`. */
  const DefaultChatLimit: int := 200

  /**
   * `list_chat_messages(b, limit)`: the briefing's messages oldest first, at most `limit`
   * of them; PostgreSQL rejects a negative `LIMIT`.
   */
  function ChatPage(m: seq<ChatMessage>, b: Id, limit: int): (r: Result<seq<ChatMessage>>)
    ensures r.Err? <==> limit < 0
    ensures r.Ok? ==> |r.value| == (if |ChatOf(m, b)| <= limit then |ChatOf(m, b)| else limit)
    ensures r.Ok? ==> r.value == ChatOf(m, b)[..|r.value|]
    ensures r.Ok? ==> forall x :: x in r.value ==> x in m && x.briefingId == b
  {
    if limit < 0 then Err("LIMIT must not be negative") else Ok(Take(ChatOf(m, b), limit))
  }

  // ---------------------------------------------------------------------------------
  // The tables

  predicate BriefingIdsBelow(bs: seq<Briefing>, n: nat) {
    forall i :: 0 <= i < |bs| ==> bs[i].id < n
  }

  predicate VersionIdsBelow(vs: seq<Version>, n: nat) {
    forall i :: 0 <= i < |vs| ==> vs[i].id < n
  }

  predicate BriefingIdsDistinct(bs: seq<Briefing>) {
    forall i, j :: 0 <= i < j < |bs| ==> bs[i].id != bs[j].id
  }

  predicate VersionIdsDistinct(vs: seq<Version>) {
    forall i, j :: 0 <= i < j < |vs| ==> vs[i].id != vs[j].id
  }

  lemma FreshBriefingId(bs: seq<Briefing>, b: Briefing, n: nat)
    requires BriefingIdsBelow(bs, n) && BriefingIdsDistinct(bs) && b.id == n
    ensures BriefingIdsBelow(bs + [b], n + 1) && BriefingIdsDistinct(bs + [b])
  {
  }

  lemma FreshVersionId(vs: seq<Version>, v: Version, n: nat)
    requires VersionIdsBelow(vs, n) && VersionIdsDistinct(vs) && v.id == n
    ensures VersionIdsBelow(vs + [v], n + 1) && VersionIdsDistinct(vs + [v])
  {
  }

  /**
   * The four tables, in insertion order. `nextId` stands for the database's generator of
   * fresh row identifiers and `commentStatus` for the column default of a new comment.
   */
  class BriefingStore {
    var briefings: seq<Briefing>
    var versions: seq<Version>
    var chat: seq<ChatMessage>
    var comments: seq<Comment>
    var nextId: nat
    const commentStatus: string

    /** Unique row identifiers, and every briefing's versions numbered 1..N. */
    ghost predicate Valid()
      reads this
    {
      BriefingIdsBelow(briefings, nextId) && BriefingIdsDistinct(briefings)
      && VersionIdsBelow(versions, nextId) && VersionIdsDistinct(versions)
      && Numbered(versions)
    }

    constructor(commentStatus: string)
      ensures Valid()
      ensures briefings == [] && versions == [] && chat == [] && comments == []
      ensures this.commentStatus == commentStatus
    {
      briefings := [];
      versions := [];
      chat := [];
      comments := [];
      nextId := 0;
      this.commentStatus := commentStatus;
    }

    /** `create_briefing`: a new briefing without a version. */
    method CreateBriefing(title: string, topic: string, createdBy: string) returns (b: Briefing)
      requires Valid()
      modifies this
      ensures Valid()
      ensures b == Briefing(old(nextId), title, topic, createdBy, None)
      ensures briefings == old(briefings) + [b]
      ensures versions == old(versions) && chat == old(chat) && comments == old(comments)
      ensures nextId == old(nextId) + 1
    {
      b := Briefing(nextId, title, topic, createdBy, None);
      FreshBriefingId(briefings, b, nextId);
      briefings := briefings + [b];
      nextId := nextId + 1;
    }

    function GetBriefing(b: Id): (r: Option<Briefing>)
      reads this
      ensures r.Some? ==> r.value in briefings && r.value.id == b
      ensures r.None? <==> forall x :: x in briefings ==> x.id != b
    {
      FindBriefing(briefings, b)
    }

    /**
     * `insert_version`: one new row numbered one past the briefing's highest number (1 for
     * its first version), carrying the given contents; existing rows are untouched.
     */
    method InsertVersion(
      briefingId: Id, createdBy: string, inputSpec: Json, dataPack: Json, contentJson: Json,
      changeSummary: Option<string>)
      returns (v: Version)
      requires Valid()
      modifies this
      ensures Valid()
      ensures v == Version(old(nextId), briefingId, NextVersionNumber(old(versions), briefingId), createdBy,
                           inputSpec, dataPack, contentJson, changeSummary)
      ensures v.versionNumber == |VersionsOf(old(versions), briefingId)| + 1
      ensures versions == old(versions) + [v]
      ensures briefings == old(briefings) && chat == old(chat) && comments == old(comments)
      ensures nextId == old(nextId) + 1
    {
      var versionNumber := NextVersionNumber(versions, briefingId);
      NextIsCount(versions, briefingId);
      v := Version(nextId, briefingId, versionNumber, createdBy, inputSpec, dataPack, contentJson, changeSummary);
      AppendKeepsNumbered(versions, v);
      FreshVersionId(versions, v, nextId);
      versions := versions + [v];
      nextId := nextId + 1;
    }

    /** `update_latest_version`: only the named briefing's pointer changes. */
    method UpdateLatestVersion(briefingId: Id, versionId: Id)
      requires Valid()
      modifies this
      ensures Valid()
      ensures briefings == SetLatest(old(briefings), briefingId, versionId)
      ensures versions == old(versions) && chat == old(chat) && comments == old(comments)
      ensures nextId == old(nextId)
    {
      briefings := SetLatest(briefings, briefingId, versionId);
    }

    /** `get_version`: a row only when both the briefing and the version id match. */
    function GetVersion(briefingId: Id, versionId: Id): (r: Option<Version>)
      reads this
      ensures r.Some? ==> r.value in versions && r.value.briefingId == briefingId && r.value.id == versionId
      ensures r.None? <==> forall x :: x in versions ==> !(x.briefingId == briefingId && x.id == versionId)
    {
      FindVersion(versions, briefingId, versionId)
    }

    /** `list_versions`: the briefing's versions, newest first. */
    function ListVersions(briefingId: Id): (r: seq<Version>)
      reads this
      ensures forall v :: v in r <==> v in versions && v.briefingId == briefingId
      ensures Valid() ==> forall i :: 0 <= i < |r| ==> r[i].versionNumber == |r| - i
    {
      ListVersionsOrder(versions, briefingId);
      Reverse(VersionsOf(versions, briefingId))
    }

    method InsertChatMessage(briefingId: Id, role: string, message: string, versionId: Option<Id>)
      returns (m: ChatMessage)
      requires Valid()
      modifies this
      ensures Valid()
      ensures m == ChatMessage(old(nextId), briefingId, role, message, versionId)
      ensures chat == old(chat) + [m]
      ensures briefings == old(briefings) && versions == old(versions) && comments == old(comments)
      ensures nextId == old(nextId) + 1
    {
      m := ChatMessage(nextId, briefingId, role, message, versionId);
      chat := chat + [m];
      nextId := nextId + 1;
    }

    method InsertComment(briefingVersionId: Id, createdBy: string, anchor: string, commentText: string)
      returns (c: Comment)
      requires Valid()
      modifies this
      ensures Valid()
      ensures c == Comment(old(nextId), briefingVersionId, createdBy, anchor, commentText, commentStatus)
      ensures comments == old(comments) + [c]
      ensures briefings == old(briefings) && versions == old(versions) && chat == old(chat)
      ensures nextId == old(nextId) + 1
    {
      c := Comment(nextId, briefingVersionId, createdBy, anchor, commentText, commentStatus);
      comments := comments + [c];
      nextId := nextId + 1;
    }

    /** `list_comments`: one version's comments, oldest first. */
    function ListComments(briefingVersionId: Id): (r: seq<Comment>)
      reads this
      ensures exists idx :: (ReadAtIncreasing(r, comments, idx)
        && forall j :: 0 <= j < |comments| ==> (j in idx <==> comments[j].briefingVersionId == briefingVersionId))
    {
      CommentsOf(comments, briefingVersionId)
    }

    /** `list_chat_messages`: the first `limit` of the briefing's messages (see `ChatOf`), oldest first. */
    function ListChatMessages(briefingId: Id, limit: int): (r: Result<seq<ChatMessage>>)
      reads this
      ensures r.Err? <==> limit < 0
      ensures r.Ok? ==> |r.value| == (if |ChatOf(chat, briefingId)| <= limit then |ChatOf(chat, briefingId)| else limit)
      ensures r.Ok? ==> r.value == ChatOf(chat, briefingId)[..|r.value|]
    {
      ChatPage(chat, briefingId, limit)
    }
  }
}
