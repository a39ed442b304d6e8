/** The session record of the REST API (server/restapi/models/session.go): the session
    identifier taken from the request path, the conversion of a stored session into the
    record, and the record's validation. */
module RestSession {
  import opened Wrappers
  import opened Values
  import SessionModel = Session
  import RestEvent

  /** `SessionID`: the three path parameters. The session identifier is optional; the
      application and the user are not. */
  datatype SessionID = SessionID(id: string, appName: string, userID: string)

  /** A decode of the path parameters: the identifier as far as it was decoded, and the
      error, if any (Go returns both). */
  datatype Parsed = Parsed(sessionID: SessionID, error: Option<string>)

  const AppNameRequired := "app_name parameter is required"
  const UserIDRequired := "user_id parameter is required"

  /** The value decoded into a string field from the parameter `key`: the empty string
      when it is absent. */
  function Param(vars: map<string, string>, key: string): (v: string)
    ensures key in vars ==> v == vars[key]
    ensures key !in vars ==> v == ""
  {
    if key in vars then vars[key] else ""
  }

  /** `SessionIDFromHTTPParameters`, after the decode (which cannot fail for string
      parameters decoded into string fields): the application is checked before the
      user, and the session identifier is not checked. */
  function SessionIDFromHTTPParameters(vars: map<string, string>): (r: Parsed)
    ensures r.sessionID
            == SessionID(Param(vars, "session_id"), Param(vars, "app_name"), Param(vars, "user_id"))
    ensures r.error.None? <==> r.sessionID.appName != "" && r.sessionID.userID != ""
    ensures r.sessionID.appName == "" ==> r.error == Some(AppNameRequired)
    ensures r.sessionID.appName != "" && r.sessionID.userID == "" ==> r.error == Some(UserIDRequired)
  {
    var sessionID := SessionID(Param(vars, "session_id"), Param(vars, "app_name"), Param(vars, "user_id"));
    if sessionID.appName == "" then Parsed(sessionID, Some(AppNameRequired))
    else if sessionID.userID == "" then Parsed(sessionID, Some(UserIDRequired))
    else Parsed(sessionID, None)
  }

  /** Whether the parameters pass does not depend on the session identifier: giving one,
      of any value, or leaving it out yields the same error. */
  lemma SessionIDOptional(vars: map<string, string>, id: string)
    ensures SessionIDFromHTTPParameters(vars["session_id" := id]).error
            == SessionIDFromHTTPParameters(vars - {"session_id"}).error
  {
    assert Param(vars["session_id" := id], "app_name") == Param(vars - {"session_id"}, "app_name");
    assert Param(vars["session_id" := id], "user_id") == Param(vars - {"session_id"}, "user_id");
  }

  /** `Session`: the record the REST API returns. A nil event list or state is `None`. */
  datatype Session = Session(
    id: string,
    appName: string,
    userID: string,
    updatedAt: int,
    events: Option<seq<RestEvent.Event>>,
    state: Option<Meta>)
  {
    /** `Validate`: the first of six checks that fails, or `None`. */
    function Validate(): (r: Option<string>)
      ensures r.Some? ==> r.value in ValidationMessages
    {
      if appName == "" then Some(ValidationMessages[0])
      else if userID == "" then Some(ValidationMessages[1])
      else if id == "" then Some(ValidationMessages[2])
      else if updatedAt == 0 then Some(ValidationMessages[3])
      else if state.None? then Some(ValidationMessages[4])
      else if events.None? then Some(ValidationMessages[5])
      else None
    }
  }

  /** The checks `Validate` runs, in order, by the field each is about. */
  const ValidationChecks := ["app_name", "user_id", "session_id", "updated_at", "state", "events"]

  const ValidationMessages := [
    "app_name is empty in received session",
    "user_id is empty in received session",
    "session_id is empty in received session",
    "updated_at is empty",
    "state is nil",
    "events is nil"]

  /** Check `k` of `ValidationChecks`, stated on its own. */
  predicate Passes(s: Session, k: nat)
    requires k < |ValidationChecks|
  {
    match k
    case 0 => s.appName != ""
    case 1 => s.userID != ""
    case 2 => s.id != ""
    case 3 => s.updatedAt != 0
    case 4 => s.state.Some?
    case _ => s.events.Some?
  }

  /** `Validate` reports check `k`'s message exactly when check `k` is the first that
      fails. */
  lemma ValidateReportsFirstFailure(s: Session, k: nat)
    requires k < |ValidationChecks|
    ensures s.Validate() == Some(ValidationMessages[k])
            <==> !Passes(s, k) && forall j | 0 <= j < k :: Passes(s, j)
  {
    if k == 0 {
    } else if k == 1 {
      assert Passes(s, 0) <==> s.appName != "";
    } else if k == 2 {
      assert Passes(s, 0) <==> s.appName != "";
      assert Passes(s, 1) <==> s.userID != "";
    } else if k == 3 {
      assert Passes(s, 0) <==> s.appName != "";
      assert Passes(s, 1) <==> s.userID != "";
      assert Passes(s, 2) <==> s.id != "";
    } else if k == 4 {
      assert Passes(s, 0) <==> s.appName != "";
      assert Passes(s, 1) <==> s.userID != "";
      assert Passes(s, 2) <==> s.id != "";
      assert Passes(s, 3) <==> s.updatedAt != 0;
    } else {
      assert Passes(s, 0) <==> s.appName != "";
      assert Passes(s, 1) <==> s.userID != "";
      assert Passes(s, 2) <==> s.id != "";
      assert Passes(s, 3) <==> s.updatedAt != 0;
      assert Passes(s, 4) <==> s.state.Some?;
    }
  }

  /** `Validate` returns nil exactly when every check passes. */
  lemma ValidateNilIffAllPass(s: Session)
    ensures s.Validate().None? <==> forall k | 0 <= k < |ValidationChecks| :: Passes(s, k)
  {
    if s.Validate().Some? {
      var k :| 0 <= k < |ValidationMessages| && s.Validate().value == ValidationMessages[k];
      ValidateReportsFirstFailure(s, k);
    }
  }

  /** The part of `session.Session` the conversion reads. */
  datatype StoredSession = StoredSession(
    id: string,
    appName: string,
    userID: string,
    state: Meta,
    events: seq<SessionModel.Event>,
    lastUpdateTime: SessionModel.Timestamp)

  /** `FromSession`: copies every state entry into a fresh map and converts the events
      in order, then returns the record together with its validation result. The state
      and the events it builds are never nil, so only the four string and time checks
      can fail. */
  method FromSession(s: StoredSession) returns (mapped: Session, err: Option<string>)
    ensures mapped.id == s.id && mapped.appName == s.appName && mapped.userID == s.userID
    ensures mapped.updatedAt == s.lastUpdateTime.seconds
    ensures mapped.state == Some(s.state)
    ensures mapped.events.Some? && |mapped.events.value| == |s.events|
    ensures forall i | 0 <= i < |s.events| :: mapped.events.value[i] == RestEvent.FromSessionEvent(s.events[i])
    ensures err == mapped.Validate()
    ensures err.None? <==> s.appName != "" && s.userID != "" && s.id != "" && s.lastUpdateTime.seconds != 0
  {
    var state := CopyState(s.state);
    var events: seq<RestEvent.Event> := [];
    for i := 0 to |s.events|
      invariant |events| == i
      invariant forall j | 0 <= j < i :: events[j] == RestEvent.FromSessionEvent(s.events[j])
    {
      events := events + [RestEvent.FromSessionEvent(s.events[i])];
    }
    mapped := Session(s.id, s.appName, s.userID, s.lastUpdateTime.seconds, Some(events), Some(state));
    err := mapped.Validate();
    ValidateWithBoth(mapped);
  }

  /** A fresh map with every entry of `src` put into it by `maps.Insert`, in an order Go
      leaves unspecified. */
  method CopyState(src: Meta) returns (r: Meta)
    ensures r == src
  {
    r := map[];
    var remaining := src.Keys;
    while remaining != {}
      invariant remaining <= src.Keys
      invariant r.Keys == src.Keys - remaining
      invariant forall k | k in r :: r[k] == src[k]
      decreases |remaining|
    {
      var k :| k in remaining;
      r := r[k := src[k]];
      remaining := remaining - {k};
    }
    MapsEqual(r, src);
  }

  lemma MapsEqual<K, V>(a: map<K, V>, b: map<K, V>)
    requires a.Keys == b.Keys && forall k | k in a :: a[k] == b[k]
    ensures a == b
  {
  }

  /** With a state and an event list present, only the string and time checks can fail. */
  lemma ValidateWithBoth(s: Session)
    requires s.state.Some? && s.events.Some?
    ensures s.Validate().None? <==> s.appName != "" && s.userID != "" && s.id != "" && s.updatedAt != 0
  {
  }
}
