/** The older variant of the server metadata (adka2a/metadata.go): the application name
    comes from the executor configuration itself, and the local event's response is
    optional, so an event without one contributes only its identifiers. */
module LegacyMetadata {
  import opened Wrappers
  import opened Values
  import Wire
  import Session

  /** `toMetaKey`. */
  function ToMetaKey(key: string): (r: string)
    ensures |r| == |key| + 4 && r[..4] == "adk_" && r[4..] == key
  {
    "adk_" + key
  }

  const AppNameKey := ToMetaKey("app_name")
  const UserIDKey := ToMetaKey("user_id")
  const SessionIDKey := ToMetaKey("session_id")
  const InvocationIDKey := ToMetaKey("invocation_id")
  const AuthorKey := ToMetaKey("author")
  const BranchKey := ToMetaKey("branch")
  const ErrorCodeKey := ToMetaKey("error_code")
  const GroundingKey := ToMetaKey("grounding_metadata")

  const EventKeys: set<string> := {InvocationIDKey, AuthorKey, BranchKey, ErrorCodeKey, GroundingKey}

  /** A local event of the older session model, whose response may be nil. */
  datatype LegacyEvent = LegacyEvent(
    invocationID: string,
    author: string,
    branch: string,
    response: Option<Session.LLMResponse>)

  datatype InvocationMeta = InvocationMeta(userID: string, sessionID: string, eventMeta: Meta)

  /** `toInvocationMeta`, keyed on the configuration's `AppName`. */
  function ToInvocationMeta(appName: string, reqCtx: Wire.RequestContext): (m: InvocationMeta)
    ensures m.userID == "A2A_USER_" + reqCtx.contextID && m.sessionID == reqCtx.contextID
    ensures m.eventMeta.Keys == {AppNameKey, UserIDKey, SessionIDKey}
    ensures m.eventMeta[AppNameKey] == Str(appName)
    ensures m.eventMeta[UserIDKey] == Str(m.userID) && m.eventMeta[SessionIDKey] == Str(m.sessionID)
  {
    var userID := "A2A_USER_" + reqCtx.contextID;
    InvocationMeta(userID, reqCtx.contextID,
      map[AppNameKey := Str(appName), UserIDKey := Str(userID), SessionIDKey := Str(reqCtx.contextID)])
  }

  lemma InvocationKeysDisjoint(appName: string, reqCtx: Wire.RequestContext)
    ensures ToInvocationMeta(appName, reqCtx).eventMeta.Keys !! EventKeys
  {
  }

  lemma EventKeysDistinct()
    ensures InvocationIDKey != AuthorKey && InvocationIDKey != BranchKey && AuthorKey != BranchKey
    ensures ErrorCodeKey !in {InvocationIDKey, AuthorKey, BranchKey}
    ensures GroundingKey !in {InvocationIDKey, AuthorKey, BranchKey, ErrorCodeKey}
  {
    assert AuthorKey[4] != BranchKey[4];
  }

  function IDEntries(e: LegacyEvent): seq<(string, string)> {
    [("invocation_id", e.invocationID), ("author", e.author), ("branch", e.branch)]
  }

  /** `toEventMeta`. Without a response only the identifiers are added, and nothing can
      fail. */
  function EventMeta(meta: InvocationMeta, e: LegacyEvent): (r: Result<Meta>)
    ensures r.Ok? <==> e.response.None? || e.response.value.groundingMetadata.None?
                       || EncodableFields(e.response.value.groundingMetadata.value)
    ensures r.Ok? ==> r.value.Keys <= meta.eventMeta.Keys + EventKeys
    ensures r.Ok? ==> forall k | k in meta.eventMeta && k !in EventKeys :: k in r.value && r.value[k] == meta.eventMeta[k]
    ensures r.Ok? ==> (e.invocationID != "" ==> InvocationIDKey in r.value && r.value[InvocationIDKey] == Str(e.invocationID))
    ensures r.Ok? ==> (e.author != "" ==> AuthorKey in r.value && r.value[AuthorKey] == Str(e.author))
    ensures r.Ok? ==> (e.branch != "" ==> BranchKey in r.value && r.value[BranchKey] == Str(e.branch))
    ensures e.response.None? ==> r == Ok(WithIDsPrefix(meta.eventMeta, e, 3))
    ensures r.Ok? && e.response.Some? && e.response.value.errorCode != "" ==>
              ErrorCodeKey in r.value && r.value[ErrorCodeKey] == Str(e.response.value.errorCode)
    ensures r.Ok? && e.response.Some? && e.response.value.groundingMetadata.Some? ==>
              GroundingKey in r.value && r.value[GroundingKey] == Obj(e.response.value.groundingMetadata.value)
    ensures r.Ok? && meta.eventMeta.Keys !! EventKeys ==>
              (InvocationIDKey in r.value <==> e.invocationID != "") &&
              (AuthorKey in r.value <==> e.author != "") &&
              (BranchKey in r.value <==> e.branch != "") &&
              (ErrorCodeKey in r.value <==> e.response.Some? && e.response.value.errorCode != "") &&
              (GroundingKey in r.value <==> e.response.Some? && e.response.value.groundingMetadata.Some?)
  {
    EventKeysDistinct();
    var withIDs := WithIDsPrefix(meta.eventMeta, e, 3);
    match e.response
    case None => Ok(withIDs)
    case Some(resp) =>
      var withCode := if resp.errorCode != "" then withIDs[ErrorCodeKey := Str(resp.errorCode)] else withIDs;
      match resp.groundingMetadata
      case None => Ok(withCode)
      case Some(g) =>
        var v :- ToMapStructure(Obj(g));
        Ok(withCode[GroundingKey := Obj(v)])
  }

  /** `toEventMeta` as written: copy, insert the identifiers, stop early without a
      response. */
  method ToEventMeta(meta: InvocationMeta, e: LegacyEvent) returns (r: Result<Meta>)
    ensures r == EventMeta(meta, e)
  {
    var result: Meta := map[];
    var todo := meta.eventMeta.Keys;
    while todo != {}
      invariant todo <= meta.eventMeta.Keys
      invariant result == map k | k in meta.eventMeta.Keys - todo :: meta.eventMeta[k]
      decreases todo
    {
      var k :| k in todo;
      result := result[k := meta.eventMeta[k]];
      todo := todo - {k};
    }
    assert result == meta.eventMeta;
    var entries := IDEntries(e);
    for i := 0 to |entries|
      invariant result == WithIDsPrefix(meta.eventMeta, e, i)
    {
      var (k, v) := entries[i];
      if v != "" {
        result := result[ToMetaKey(k) := Str(v)];
      }
    }
    if e.response.None? {
      return Ok(result);
    }
    var resp := e.response.value;
    if resp.errorCode != "" {
      result := result[ErrorCodeKey := Str(resp.errorCode)];
    }
    if resp.groundingMetadata.Some? {
      var v := ToMapStructure(Obj(resp.groundingMetadata.value));
      if v.Err? {
        return Err(v.error);
      }
      result := result[GroundingKey := Obj(v.value)];
    }
    return Ok(result);
  }

  /** The map once the first `n` identifier entries have been visited. */
  function WithIDsPrefix(m: Meta, e: LegacyEvent, n: nat): Meta
    requires n <= 3
  {
    var m1 := if n >= 1 && e.invocationID != "" then m[InvocationIDKey := Str(e.invocationID)] else m;
    var m2 := if n >= 2 && e.author != "" then m1[AuthorKey := Str(e.author)] else m1;
    if n >= 3 && e.branch != "" then m2[BranchKey := Str(e.branch)] else m2
  }
}
