/** Metadata the server attaches to the wire events it emits: the `adk_`-prefixed keys
    naming the application, user, session and the fields of the local event that
    produced the wire event (server/adka2a/metadata.go). */
module ServerMetadata {
  import opened Wrappers
  import opened Values
  import Wire
  import Session

  /** `ToA2AMetaKey`: the namespace of local-runtime values inside wire metadata. */
  function ToA2AMetaKey(key: string): (r: string)
    ensures |r| == |key| + 4 && r[..4] == "adk_" && r[4..] == key
  {
    "adk_" + key
  }

  lemma ToA2AMetaKeyInjective(a: string, b: string)
    ensures ToA2AMetaKey(a) == ToA2AMetaKey(b) <==> a == b
  {
    if ToA2AMetaKey(a) == ToA2AMetaKey(b) {
      assert a == ToA2AMetaKey(a)[4..];
    }
  }

  const AppNameKey := ToA2AMetaKey("app_name")
  const UserIDKey := ToA2AMetaKey("user_id")
  const SessionIDKey := ToA2AMetaKey("session_id")
  const InvocationIDKey := ToA2AMetaKey("invocation_id")
  const AuthorKey := ToA2AMetaKey("author")
  const BranchKey := ToA2AMetaKey("branch")
  const ErrorCodeKey := ToA2AMetaKey("error_code")
  const GroundingKey := ToA2AMetaKey("grounding_metadata")

  /** The keys `ToEventMeta` may add on top of the invocation's own metadata. */
  const EventKeys: set<string> := {InvocationIDKey, AuthorKey, BranchKey, ErrorCodeKey, GroundingKey}

  datatype InvocationMeta = InvocationMeta(userID: string, sessionID: string, eventMeta: Meta)

  /** `toInvocationMeta`: the user and session are derived from the request's context. */
  function ToInvocationMeta(appName: string, reqCtx: Wire.RequestContext): (m: InvocationMeta)
    ensures m.userID == "A2A_USER_" + reqCtx.contextID && m.sessionID == reqCtx.contextID
    ensures m.eventMeta.Keys == {AppNameKey, UserIDKey, SessionIDKey}
    ensures m.eventMeta[AppNameKey] == Str(appName)
    ensures m.eventMeta[UserIDKey] == Str(m.userID) && m.eventMeta[SessionIDKey] == Str(m.sessionID)
  {
    var userID := "A2A_USER_" + reqCtx.contextID;
    var sessionID := reqCtx.contextID;
    InvocationMeta(userID, sessionID,
      map[AppNameKey := Str(appName), UserIDKey := Str(userID), SessionIDKey := Str(sessionID)])
  }

  /** The invocation's own keys and the keys added per event never collide. */
  lemma InvocationKeysDisjoint(appName: string, reqCtx: Wire.RequestContext)
    ensures ToInvocationMeta(appName, reqCtx).eventMeta.Keys !! EventKeys
  {
  }

  /** The string fields of a local event copied when non-empty, as (key, value) pairs. */
  function IDEntries(e: Session.Event): seq<(string, string)> {
    [("invocation_id", e.invocationID), ("author", e.author), ("branch", e.branch)]
  }

  lemma EventKeysDistinct()
    ensures InvocationIDKey != AuthorKey && InvocationIDKey != BranchKey && AuthorKey != BranchKey
    ensures ErrorCodeKey !in {InvocationIDKey, AuthorKey, BranchKey}
    ensures GroundingKey !in {InvocationIDKey, AuthorKey, BranchKey, ErrorCodeKey}
  {
    assert AuthorKey[4] != BranchKey[4];
  }

  /** `toEventMeta`: the invocation's metadata plus the event's non-empty identifiers,
      its error code and its grounding metadata. Converting the grounding metadata is
      the only way to fail. */
  function EventMeta(meta: InvocationMeta, e: Session.Event): (r: Result<Meta>)
    ensures r.Ok? <==> e.response.groundingMetadata.None? || EncodableFields(e.response.groundingMetadata.value)
    ensures r.Ok? ==> r.value.Keys <= meta.eventMeta.Keys + EventKeys
    ensures r.Ok? ==> forall k | k in meta.eventMeta && k !in EventKeys :: k in r.value && r.value[k] == meta.eventMeta[k]
    ensures r.Ok? ==> (e.invocationID != "" ==> InvocationIDKey in r.value && r.value[InvocationIDKey] == Str(e.invocationID))
    ensures r.Ok? ==> (e.author != "" ==> AuthorKey in r.value && r.value[AuthorKey] == Str(e.author))
    ensures r.Ok? ==> (e.branch != "" ==> BranchKey in r.value && r.value[BranchKey] == Str(e.branch))
    ensures r.Ok? ==> (e.response.errorCode != "" ==> ErrorCodeKey in r.value && r.value[ErrorCodeKey] == Str(e.response.errorCode))
    ensures r.Ok? ==> (e.response.groundingMetadata.Some? ==>
                        GroundingKey in r.value && r.value[GroundingKey] == Obj(e.response.groundingMetadata.value))
    ensures r.Ok? && meta.eventMeta.Keys !! EventKeys ==>
              (InvocationIDKey in r.value <==> e.invocationID != "") &&
              (AuthorKey in r.value <==> e.author != "") &&
              (BranchKey in r.value <==> e.branch != "") &&
              (ErrorCodeKey in r.value <==> e.response.errorCode != "") &&
              (GroundingKey in r.value <==> e.response.groundingMetadata.Some?)
  {
    EventKeysDistinct();
    var withIDs := WithIDsPrefix(meta.eventMeta, e, 3);
    var withCode :=
      if e.response.errorCode != "" then withIDs[ErrorCodeKey := Str(e.response.errorCode)] else withIDs;
    match e.response.groundingMetadata
    case None => Ok(withCode)
    case Some(g) =>
      var v :- ToMapStructure(Obj(g));
      Ok(withCode[GroundingKey := Obj(v)])
  }

  /** `toEventMeta` as written: a fresh map filled by copying, then by insertion. */
  method ToEventMeta(meta: InvocationMeta, e: Session.Event) returns (r: Result<Meta>)
    ensures r == EventMeta(meta, e)
  {
    var result: Meta := map[];
    var todo := meta.eventMeta.Keys;
    while todo != {}
      invariant todo <= meta.eventMeta.Keys
      invariant result == map k | k in meta.eventMeta.Keys - todo :: meta.eventMeta[k]
      decreases todo
    {
      var k :| k in todo;
      result := result[k := meta.eventMeta[k]];
      todo := todo - {k};
    }
    assert result == meta.eventMeta;
    var entries := IDEntries(e);
    for i := 0 to |entries|
      invariant result == WithIDsPrefix(meta.eventMeta, e, i)
    {
      var (k, v) := entries[i];
      if v != "" {
        result := result[ToA2AMetaKey(k) := Str(v)];
      }
    }
    if e.response.errorCode != "" {
      result := result[ErrorCodeKey := Str(e.response.errorCode)];
    }
    if e.response.groundingMetadata.Some? {
      var v := ToMapStructure(Obj(e.response.groundingMetadata.value));
      if v.Err? {
        return Err(v.error);
      }
      result := result[GroundingKey := Obj(v.value)];
    }
    return Ok(result);
  }

  /** The map once the first `n` identifier entries have been visited (the entries come
      from a map in Go, so the visiting order is arbitrary; the three keys differ, so
      the outcome is the same in any order). */
  function WithIDsPrefix(m: Meta, e: Session.Event, n: nat): Meta
    requires n <= 3
  {
    var m1 := if n >= 1 && e.invocationID != "" then m[InvocationIDKey := Str(e.invocationID)] else m;
    var m2 := if n >= 2 && e.author != "" then m1[AuthorKey := Str(e.author)] else m1;
    if n >= 3 && e.branch != "" then m2[BranchKey := Str(e.branch)] else m2
  }
}
