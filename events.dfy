/** The inbound translator (server/adka2a/events.go): one wire event becomes zero or one
    session event authored by the agent of the invocation context, and the wire task and
    context IDs travel in the session event's custom metadata under `a2a:` keys. The
    outbound direction turns a session event into a wire message. */
module Events {
  import opened Wrappers
  import opened Values
  import GenAI
  import Wire
  import Session
  import Parts
  import PartsLaws

  // ---- custom metadata ----

  /** `ToADKMetaKey`: the namespace of wire values inside session custom metadata. */
  function ToADKMetaKey(key: string): (r: string)
    ensures |r| == |key| + 4 && r[..4] == "a2a:" && r[4..] == key
  {
    "a2a:" + key
  }

  const TaskIDKey := ToADKMetaKey("task_id")
  const ContextIDKey := ToADKMetaKey("context_id")

  lemma TaskKeysDistinct()
    ensures TaskIDKey != ContextIDKey
  {
    assert TaskIDKey[4] != ContextIDKey[4];
  }

  /** `ToCustomMetadata`: exactly the task and context IDs, as strings. */
  function ToCustomMetadata(taskID: string, contextID: string): (m: Meta)
    ensures m.Keys == {TaskIDKey, ContextIDKey}
    ensures m[TaskIDKey] == Str(taskID) && m[ContextIDKey] == Str(contextID)
  {
    TaskKeysDistinct();
    map[TaskIDKey := Str(taskID), ContextIDKey := Str(contextID)]
  }

  /** The string stored under `key`, or empty when it is absent or not a string. */
  function StrAt(m: Meta, key: string): string {
    if key in m && m[key].Str? then m[key].s else ""
  }

  /** `GetA2ATaskInfo`: the task and context IDs found in an event's custom metadata. */
  function GetA2ATaskInfo(event: Option<Session.Event>): (r: (string, string))
    ensures event.None? || event.value.response.customMetadata.None? ==> r == ("", "")
  {
    match event
    case None => ("", "")
    case Some(e) =>
      match e.response.customMetadata
      case None => ("", "")
      case Some(m) => (StrAt(m, TaskIDKey), StrAt(m, ContextIDKey))
  }

  /** The task info written by `ToCustomMetadata` is read back unchanged. */
  lemma TaskInfoRoundTrip(e: Session.Event, taskID: string, contextID: string)
    ensures GetA2ATaskInfo(Some(e.(response := e.response.(customMetadata := Some(ToCustomMetadata(taskID, contextID))))))
            == (taskID, contextID)
  {
  }

  /** A value of another type under either key reads as empty. */
  lemma TaskInfoIgnoresNonStrings(e: Session.Event, m: Meta)
    requires e.response.customMetadata == Some(m)
    requires TaskIDKey in m && !m[TaskIDKey].Str? && ContextIDKey in m && !m[ContextIDKey].Str?
    ensures GetA2ATaskInfo(Some(e)) == ("", "")
  {
  }

  // ---- roles and the remote agent's events ----

  /** `toGenAIRole`. */
  function ToGenAIRole(role: Wire.Role): (r: string)
    ensures r == GenAI.RoleUser || r == GenAI.RoleModel
    ensures r == GenAI.RoleUser <==> role == Wire.RoleUser
  {
    if role == Wire.RoleUser then GenAI.RoleUser else GenAI.RoleModel
  }

  /** `NewRemoteAgentEvent`: an empty event of the invocation, authored by its agent on its
      branch. */
  function NewRemoteAgentEvent(ctx: Session.InvocationContext): (e: Session.Event)
    ensures e.invocationID == ctx.invocationID && e.author == ctx.agentName && e.branch == ctx.branch
    ensures e.response == Session.EmptyResponse && e.longRunningToolIDs == []
  {
    Session.NewEvent(ctx.invocationID).(author := ctx.agentName, branch := ctx.branch)
  }

  /** The agent's event carrying `parts` under `role`; without parts it has no content. */
  function WithParts(e: Session.Event, parts: seq<GenAI.Part>, role: string): (r: Session.Event)
    requires e.response.content.None?
    ensures r.response.content.Some? <==> |parts| > 0
    ensures r.response.content.Some? ==> r.response.content.value == GenAI.Content(role, parts)
    ensures r == e.(response := r.response) &&
            r.response == e.response.(content := r.response.content)
  {
    if |parts| > 0 then e.(response := e.response.(content := Some(GenAI.Content(role, parts)))) else e
  }

  function WithCustomMetadata(e: Session.Event, m: Meta): Session.Event {
    e.(response := e.response.(customMetadata := Some(m)))
  }

  /** `EventToMessage`: the event's content parts encoded for the wire, in the user role
      exactly when the user wrote the event. A missing event gives no message. The source
      dereferences the content unconditionally, so an event must have content. */
  function EventToMessage(event: Option<Session.Event>): (r: Result<Option<Wire.Message>>)
    requires event.Some? ==> event.value.response.content.Some?
    ensures event.None? ==> r == Ok(None)
    ensures event.Some? ==> (r.Ok? <==> Parts.EncodeParts(event.value.response.content.value.parts,
                                                           event.value.longRunningToolIDs).Ok?)
    ensures event.Some? && r.Ok? ==>
              r.value.Some? &&
              r.value.value.parts == Parts.EncodeParts(event.value.response.content.value.parts,
                                                       event.value.longRunningToolIDs).value &&
              (r.value.value.role == Wire.RoleUser <==> event.value.author == "user")
  {
    match event
    case None => Ok(None)
    case Some(e) =>
      match Parts.EncodeParts(e.response.content.value.parts, e.longRunningToolIDs)
      case Err(err) => Err("part conversion failed: " + err)
      case Ok(parts) =>
        var role := if e.author == "user" then Wire.RoleUser else Wire.RoleAgent;
        Ok(Some(Wire.Message(role, parts, "", "")))
  }

  // ---- long-running tool IDs ----

  /** A wire data part flagged as a long-running call (`true` under the long-running key). */
  predicate FlaggedLongRunning(w: Wire.Part) {
    w.DataPart? && Parts.LongRunningKey in w.metadata && w.metadata[Parts.LongRunningKey] == Bool(true)
  }

  /** The outcome of `getLongRunningToolIDs`: the call IDs of the converted parts at the
      flagged positions, in part order; a flagged position whose converted part is not a
      call contributes nothing. */
  function LongRunningIDs(ws: seq<Wire.Part>, converted: seq<GenAI.Part>): seq<string>
    requires |ws| <= |converted|
    decreases |ws|
  {
    if ws == [] then []
    else
      var i := |ws| - 1;
      LongRunningIDs(ws[..i], converted)
        + (if FlaggedLongRunning(ws[i]) && converted[i].functionCall.Some?
           then [converted[i].functionCall.value.id] else [])
  }

  /** `getLongRunningToolIDs`. */
  method GetLongRunningToolIDs(ws: seq<Wire.Part>, converted: seq<GenAI.Part>) returns (ids: seq<string>)
    requires |ws| <= |converted|
    ensures ids == LongRunningIDs(ws, converted)
  {
    ids := [];
    for i := 0 to |ws|
      invariant ids == LongRunningIDs(ws[..i], converted)
    {
      assert ws[..i + 1][..i] == ws[..i];
      var part := ws[i];
      if !part.DataPart? {
        continue;
      }
      if Parts.LongRunningKey in part.metadata && part.metadata[Parts.LongRunningKey].Bool?
         && part.metadata[Parts.LongRunningKey].b {
        var fnCall := converted[i];
        if fnCall.functionCall.None? {
          continue;
        }
        ids := ids + [fnCall.functionCall.value.id];
      }
    }
    assert ws[..|ws|] == ws;
  }

  /** The IDs depend only on the converted parts at the positions of `ws`. */
  lemma {:induction false} LongRunningIDsPrefix(ws: seq<Wire.Part>, c1: seq<GenAI.Part>, c2: seq<GenAI.Part>)
    requires |ws| <= |c1| && |ws| <= |c2| && c1[..|ws|] == c2[..|ws|]
    ensures LongRunningIDs(ws, c1) == LongRunningIDs(ws, c2)
    decreases |ws|
  {
    if ws != [] {
      var i := |ws| - 1;
      assert c1[i] == c1[..|ws|][i] && c2[i] == c2[..|ws|][i];
      assert c1[..i] == c1[..|ws|][..i] && c2[..i] == c2[..|ws|][..i];
      LongRunningIDsPrefix(ws[..i], c1, c2);
    }
  }

  /** The IDs of two aligned runs of parts, one after the other, are the IDs of each run
      one after the other. */
  lemma {:induction false} LongRunningIDsAppend(ws1: seq<Wire.Part>, c1: seq<GenAI.Part>,
                                                ws2: seq<Wire.Part>, c2: seq<GenAI.Part>)
    requires |ws1| == |c1| && |ws2| <= |c2|
    ensures LongRunningIDs(ws1 + ws2, c1 + c2) == LongRunningIDs(ws1, c1) + LongRunningIDs(ws2, c2)
    decreases |ws2|
  {
    if ws2 == [] {
      assert ws1 + ws2 == ws1;
      assert (c1 + c2)[..|ws1|] == c1[..|ws1|];
      LongRunningIDsPrefix(ws1, c1 + c2, c1);
    } else {
      var i := |ws2| - 1;
      AppendDropLast(ws1, ws2);
      AppendIndex(c1, c2, i);
      LongRunningIDsAppend(ws1, c1, ws2[..i], c2);
    }
  }

  lemma AppendDropLast<T>(a: seq<T>, b: seq<T>)
    requires b != []
    ensures (a + b)[..|a + b| - 1] == a + b[..|b| - 1]
    ensures (a + b)[|a + b| - 1] == b[|b| - 1]
  { }

  lemma AppendIndex<T>(a: seq<T>, b: seq<T>, i: nat)
    requires i < |b|
    ensures (a + b)[|a| + i] == b[i]
  { }

  /** Every reported ID is that of a converted function call at a flagged position. */
  lemma {:induction false} LongRunningIDsSound(ws: seq<Wire.Part>, converted: seq<GenAI.Part>, x: string)
    requires |ws| <= |converted|
    requires x in LongRunningIDs(ws, converted)
    ensures exists i | 0 <= i < |ws| :: FlaggedLongRunning(ws[i]) && converted[i].functionCall.Some? &&
                                       converted[i].functionCall.value.id == x
    decreases |ws|
  {
    var i := |ws| - 1;
    if x in LongRunningIDs(ws[..i], converted) {
      LongRunningIDsSound(ws[..i], converted, x);
      var j :| 0 <= j < i && FlaggedLongRunning(ws[..i][j]) && converted[j].functionCall.Some? &&
               converted[j].functionCall.value.id == x;
      assert ws[..i][j] == ws[j];
    }
  }

  /** The calls of `ps` whose ID is in `ids`, as a list of IDs in part order. */
  function CallIDsIn(ps: seq<GenAI.Part>, ids: seq<string>): seq<string>
    decreases |ps|
  {
    if ps == [] then []
    else
      var i := |ps| - 1;
      CallIDsIn(ps[..i], ids)
        + (if ps[i].functionCall.Some? && ps[i].functionCall.value.id in ids then [ps[i].functionCall.value.id] else [])
  }

  /** Encoding canonical parts with a set of long-running IDs and reading the IDs back from
      the encoded and decoded parts recovers exactly the calls whose ID is in the set. */
  lemma LongRunningIDsRecovered(ps: seq<GenAI.Part>, ids: seq<string>)
    requires forall i | 0 <= i < |ps| :: PartsLaws.Canonical(ps[i])
    ensures Parts.EncodeParts(ps, ids).Ok?
    ensures |Parts.EncodeParts(ps, ids).value| == |ps|
    ensures LongRunningIDs(Parts.EncodeParts(ps, ids).value, ps) == CallIDsIn(ps, ids)
  {
    PartsLaws.PartsRoundTrip(ps, ids);
    PartsLaws.EncodePartsAligned(ps, ids);
    LongRunningIDsOfEncoded(Parts.EncodeParts(ps, ids).value, ps, ids);
  }

  /** The same, for any run of wire parts that encodes `ps` position by position. */
  lemma {:induction false} LongRunningIDsOfEncoded(ws: seq<Wire.Part>, ps: seq<GenAI.Part>, ids: seq<string>)
    requires |ws| == |ps|
    requires forall i | 0 <= i < |ps| :: PartsLaws.Canonical(ps[i])
    requires forall i | 0 <= i < |ps| :: Parts.A2APart(ps[i], ids) == Ok(ws[i])
    ensures LongRunningIDs(ws, ps) == CallIDsIn(ps, ids)
    decreases |ws|
  {
    if ws != [] {
      var i := |ws| - 1;
      LongRunningIDsOfEncoded(ws[..i], ps[..i], ids);
      PrefixOfPrefix(ps, i);
      LongRunningIDsPrefix(ws[..i], ps, ps[..i]);
      PartFlagOnlyOnCalls(ps[i], ids);
    }
  }

  lemma PrefixOfPrefix<T>(s: seq<T>, i: nat)
    requires i <= |s|
    ensures s[..i][..i] == s[..i]
  { }

  /** An encoded canonical part is flagged long-running exactly when it is a call whose ID
      is among the long-running IDs. */
  lemma PartFlagOnlyOnCalls(p: GenAI.Part, ids: seq<string>)
    requires PartsLaws.Canonical(p)
    ensures Parts.A2APart(p, ids).Ok?
    ensures FlaggedLongRunning(Parts.A2APart(p, ids).value) <==> p.functionCall.Some? && p.functionCall.value.id in ids
  {
    PartsLaws.PartRoundTrip(p, ids);
    PartsLaws.PartKeysDistinct();
    if p.functionCall.Some? && p == GenAI.FunctionCallPart(p.functionCall.value) {
      PartsLaws.LongRunningFlag(p.functionCall.value, ids);
    }
  }

  // ---- wire messages, artifacts and status updates ----

  const NoContextError := "InvocationContext not provided"

  /** `messageToEvent`: the message's parts under its role, with its task and context IDs
      in custom metadata when either is set. */
  function MessageToEvent(ctx: Option<Session.InvocationContext>, msg: Wire.Message): (r: Result<Session.Event>)
    ensures r.Ok? <==> ctx.Some? && Parts.DecodeParts(msg.parts).Ok?
    ensures r.Ok? ==> r.value.author == ctx.value.agentName && r.value.invocationID == ctx.value.invocationID
    ensures r.Ok? ==> (r.value.response.content.Some? <==> |msg.parts| > 0)
    ensures r.Ok? && r.value.response.content.Some? ==>
              r.value.response.content.value == GenAI.Content(ToGenAIRole(msg.role), Parts.DecodeParts(msg.parts).value)
    ensures r.Ok? ==> (r.value.response.customMetadata.Some? <==> msg.taskID != "" || msg.contextID != "")
    ensures r.Ok? && r.value.response.customMetadata.Some? ==>
              r.value.response.customMetadata.value == ToCustomMetadata(msg.taskID, msg.contextID)
    ensures r.Ok? ==> r.value.longRunningToolIDs == [] && !r.value.response.turnComplete
  {
    PartsLaws.DecodePartsAligned(msg.parts);
    if ctx.None? then Err(NoContextError)
    else
      var parts :- Parts.DecodeParts(msg.parts);
      var event := WithParts(NewRemoteAgentEvent(ctx.value), parts, ToGenAIRole(msg.role));
      if msg.taskID != "" || msg.contextID != "" then
        Ok(WithCustomMetadata(event, ToCustomMetadata(msg.taskID, msg.contextID)))
      else Ok(event)
  }

  /** `artifactToEvent`: the artifact's parts under the model role. */
  function ArtifactToEvent(ctx: Option<Session.InvocationContext>, artifact: Wire.Artifact): (r: Result<Session.Event>)
    ensures r.Ok? <==> ctx.Some? && Parts.DecodeParts(artifact.parts).Ok?
    ensures r.Ok? ==> r.value == NewRemoteAgentEvent(ctx.value).(response := Session.EmptyResponse.(
                        content := Some(GenAI.Content(GenAI.RoleModel, Parts.DecodeParts(artifact.parts).value))))
  {
    if ctx.None? then Err(NoContextError)
    else
      var parts :- Parts.DecodeParts(artifact.parts);
      var event := NewRemoteAgentEvent(ctx.value);
      Ok(event.(response := event.response.(content := Some(GenAI.Content(GenAI.RoleModel, parts)))))
  }

  /** `finalTaskStatusUpdateToEvent`: the end of the remote turn, with the status message's
      parts, if it has any, under the model role. */
  function FinalStatusToEvent(ctx: Session.InvocationContext, u: Wire.StatusUpdate): (r: Result<Session.Event>)
    ensures r.Ok? <==> u.status.message.None? || Parts.DecodeParts(u.status.message.value.parts).Ok?
    ensures r.Ok? ==> r.value.response.turnComplete
    ensures r.Ok? ==> r.value.response.customMetadata == Some(ToCustomMetadata(u.taskID, u.contextID))
    ensures r.Ok? ==> (r.value.response.content.Some? <==> u.status.message.Some? && |u.status.message.value.parts| > 0)
    ensures r.Ok? && r.value.response.content.Some? ==>
              r.value.response.content.value ==
              GenAI.Content(GenAI.RoleModel, Parts.DecodeParts(u.status.message.value.parts).value)
  {
    PartsLaws.DecodePartsAligned(if u.status.message.Some? then u.status.message.value.parts else []);
    var parts :- match u.status.message
                 case None => Ok([])
                 case Some(m) => Parts.DecodeParts(m.parts);
    var event := WithParts(NewRemoteAgentEvent(ctx), parts, GenAI.RoleModel);
    var event := WithCustomMetadata(event, ToCustomMetadata(u.taskID, u.contextID));
    Ok(event.(response := event.response.(turnComplete := true)))
  }

  /** Every part marked as a thought. */
  function MarkThoughts(ps: seq<GenAI.Part>): (r: seq<GenAI.Part>)
    ensures |r| == |ps| && forall i | 0 <= i < |ps| :: r[i] == ps[i].(thought := true)
  {
    seq(|ps|, i requires 0 <= i < |ps| => ps[i].(thought := true))
  }

  /** A non-final status update, as the source evidently intends: no message, or a message
      with no parts, gives no event; a message that does not translate is an error;
      otherwise the message's event, with its decoded parts, under the message's role,
      all marked as thoughts, and the update's IDs as its custom metadata. */
  function InterimStatusToEvent(ctx: Option<Session.InvocationContext>, u: Wire.StatusUpdate): (r: Result<Option<Session.Event>>)
    ensures r.Err? <==> u.status.message.Some? && MessageToEvent(ctx, u.status.message.value).Err?
    ensures r == Ok(None) <==> u.status.message.None? ||
                               (MessageToEvent(ctx, u.status.message.value).Ok? && |u.status.message.value.parts| == 0)
    ensures r.Ok? && r.value.Some? ==>
              r.value.value.response.customMetadata == Some(ToCustomMetadata(u.taskID, u.contextID)) &&
              r.value.value.response.content.Some? &&
              forall p | p in r.value.value.response.content.value.parts :: p.thought
    ensures r.Ok? && r.value.Some? ==>
              var m := u.status.message.value;
              var e := MessageToEvent(ctx, m).value;
              r.value.value == e.(response := e.response.(
                customMetadata := Some(ToCustomMetadata(u.taskID, u.contextID)),
                content := Some(GenAI.Content(ToGenAIRole(m.role), MarkThoughts(Parts.DecodeParts(m.parts).value)))))
  {
    match u.status.message
    case None => Ok(None)
    case Some(m) =>
      match MessageToEvent(ctx, m)
      case Err(e) => Err("custom metadata conversion failed: " + e)
      case Ok(event) =>
        var event := WithCustomMetadata(event, ToCustomMetadata(u.taskID, u.contextID));
        match event.response.content
        case None => Ok(None)
        case Some(c) =>
          if |c.parts| == 0 then Ok(None)
          else Ok(Some(event.(response := event.response.(content := Some(c.(parts := MarkThoughts(c.parts)))))))
  }

  /** What the non-final status branch does as written: the event is updated before the
      error is checked, and its content is read without a check, so a failed translation
      and a message without parts both dereference a nil event or content. */
  datatype Outcome = Returned(result: Result<Option<Session.Event>>) | NilDereference

  function InterimStatusToEventAsWritten(ctx: Option<Session.InvocationContext>, u: Wire.StatusUpdate): (r: Outcome)
    ensures r.Returned? ==> r.result == InterimStatusToEvent(ctx, u)
  {
    match u.status.message
    case None => Returned(Ok(None))
    case Some(m) =>
      match MessageToEvent(ctx, m)
      case Err(_) => NilDereference
      case Ok(event) =>
        var event := WithCustomMetadata(event, ToCustomMetadata(u.taskID, u.contextID));
        match event.response.content
        case None => NilDereference
        case Some(c) =>
          if |c.parts| == 0 then Returned(Ok(None))
          else Returned(Ok(Some(event.(response := event.response.(content := Some(c.(parts := MarkThoughts(c.parts))))))))
  }

  /** The two inputs on which the branch as written dereferences nil: a status message
      holding a part of an unknown kind, and a status message with no parts. */
  lemma InterimStatusNilDereference(ctx: Session.InvocationContext, taskID: string, contextID: string)
    ensures InterimStatusToEventAsWritten(Some(ctx),
              Wire.StatusUpdate(taskID, contextID,
                Wire.TaskStatus(Wire.Working, Some(Wire.Message(Wire.RoleAgent, [Wire.OtherPart("T")], "", ""))),
                false, None)) == NilDereference
    ensures InterimStatusToEventAsWritten(Some(ctx),
              Wire.StatusUpdate(taskID, contextID,
                Wire.TaskStatus(Wire.Working, Some(Wire.Message(Wire.RoleAgent, [], "", ""))),
                false, None)) == NilDereference
  {
    var bad := Wire.Message(Wire.RoleAgent, [Wire.OtherPart("T")], "", "");
    PartsLaws.DecodeFailurePropagates(bad, 0);
    var empty := Wire.Message(Wire.RoleAgent, [], "", "");
    assert Parts.DecodeParts([]) == Ok([]);
  }

  // ---- task snapshots ----

  /** The parts of the first artifacts, decoded one artifact after the other, with the
      long-running IDs found in each, in order; the first artifact that does not decode
      is the error. */
  function ArtifactsParts(arts: seq<Wire.Artifact>): Result<(seq<GenAI.Part>, seq<string>)>
    decreases |arts|
  {
    if arts == [] then Ok(([], []))
    else
      var prev :- ArtifactsParts(arts[..|arts| - 1]);
      var last := arts[|arts| - 1];
      match Parts.DecodeParts(last.parts)
      case Err(e) => Err("failed to convert artifact parts: " + e)
      case Ok(ps) =>
        PartsLaws.DecodePartsAligned(last.parts);
        Ok((prev.0 + ps, prev.1 + LongRunningIDs(last.parts, ps)))
  }

  /** The status message's decoded parts and their long-running IDs. */
  function StatusParts(msg: Option<Wire.Message>): Result<(seq<GenAI.Part>, seq<string>)> {
    match msg
    case None => Ok(([], []))
    case Some(m) =>
      match Parts.DecodeParts(m.parts)
      case Err(e) => Err("failed to convert status message parts: " + e)
      case Ok(ps) =>
        PartsLaws.DecodePartsAligned(m.parts);
        Ok((ps, LongRunningIDs(m.parts, ps)))
  }

  /** The outcome of `taskToEvent`. */
  function TaskEvent(ctx: Option<Session.InvocationContext>, task: Wire.Task): Result<Session.Event> {
    if ctx.None? then Err(NoContextError)
    else
      var (aps, alr) :- ArtifactsParts(task.artifacts);
      var (mps, mlr) :- StatusParts(task.status.message);
      var event := WithParts(NewRemoteAgentEvent(ctx.value), aps + mps, GenAI.RoleModel);
      var event := WithCustomMetadata(event, ToCustomMetadata(task.id, task.contextID));
      if task.status.state == Wire.InputRequired then Ok(event.(longRunningToolIDs := alr + mlr))
      else Ok(event)
  }

  /** `taskToEvent`: artifacts in order, then the status message. */
  method TaskToEvent(ctx: Option<Session.InvocationContext>, task: Wire.Task) returns (r: Result<Session.Event>)
    ensures r == TaskEvent(ctx, task)
  {
    if ctx.None? {
      return Err(NoContextError);
    }
    var parts: seq<GenAI.Part> := [];
    var longRunningToolIDs: seq<string> := [];
    for i := 0 to |task.artifacts|
      invariant ArtifactsParts(task.artifacts[..i]) == Ok((parts, longRunningToolIDs))
    {
      var artifact := task.artifacts[i];
      assert task.artifacts[..i + 1][..i] == task.artifacts[..i];
      var artifactParts := Parts.ToGenAIParts(artifact.parts);
      if artifactParts.Err? {
        ArtifactsPartsErrorSticks(task.artifacts, i + 1);
        ArtifactsPartsErrPrefix(task.artifacts, i + 1);
        return Err("failed to convert artifact parts: " + artifactParts.error);
      }
      PartsLaws.DecodePartsAligned(artifact.parts);
      var lrtIDs := GetLongRunningToolIDs(artifact.parts, artifactParts.value);
      parts := parts + artifactParts.value;
      longRunningToolIDs := longRunningToolIDs + lrtIDs;
    }
    assert task.artifacts[..|task.artifacts|] == task.artifacts;
    ghost var aps, alr := parts, longRunningToolIDs;
    if task.status.message.Some? {
      var msgParts := Parts.ToGenAIParts(task.status.message.value.parts);
      if msgParts.Err? {
        return Err("failed to convert status message parts: " + msgParts.error);
      }
      PartsLaws.DecodePartsAligned(task.status.message.value.parts);
      var lrtIDs := GetLongRunningToolIDs(task.status.message.value.parts, msgParts.value);
      parts := parts + msgParts.value;
      longRunningToolIDs := longRunningToolIDs + lrtIDs;
      assert StatusParts(task.status.message) == Ok((msgParts.value, lrtIDs));
    } else {
      assert parts == aps + [] && longRunningToolIDs == alr + [];
    }
    assert StatusParts(task.status.message) == Ok((parts[|aps|..], longRunningToolIDs[|alr|..]));
    assert parts == aps + parts[|aps|..] && longRunningToolIDs == alr + longRunningToolIDs[|alr|..];
    var event := NewRemoteAgentEvent(ctx.value);
    if |parts| > 0 {
      event := event.(response := event.response.(content := Some(GenAI.Content(GenAI.RoleModel, parts))));
    }
    event := WithCustomMetadata(event, ToCustomMetadata(task.id, task.contextID));
    if task.status.state == Wire.InputRequired {
      event := event.(longRunningToolIDs := longRunningToolIDs);
    }
    return Ok(event);
  }

  /** A failure among the first `n` artifacts is the failure of all of them. */
  lemma {:induction false} ArtifactsPartsErrorSticks(arts: seq<Wire.Artifact>, n: nat)
    requires 0 < n <= |arts|
    requires ArtifactsParts(arts[..n - 1]).Ok? && Parts.DecodeParts(arts[n - 1].parts).Err?
    ensures ArtifactsParts(arts[..n]) == Err("failed to convert artifact parts: " + Parts.DecodeParts(arts[n - 1].parts).error)
  {
    assert arts[..n][..n - 1] == arts[..n - 1];
    assert arts[..n][n - 1] == arts[n - 1];
  }

  /** Once a prefix of the artifacts fails, so does the whole list, with that error. */
  lemma {:induction false} ArtifactsPartsErrPrefix(arts: seq<Wire.Artifact>, n: nat)
    requires n <= |arts| && ArtifactsParts(arts[..n]).Err?
    ensures ArtifactsParts(arts) == ArtifactsParts(arts[..n])
    decreases |arts|
  {
    if n == |arts| {
      assert arts[..n] == arts;
    } else {
      var init := arts[..|arts| - 1];
      assert init[..n] == arts[..n];
      ArtifactsPartsErrPrefix(init, n);
    }
  }

  /** All wire parts of a task snapshot: every artifact's parts in order, then the status
      message's. */
  function AllArtifactParts(arts: seq<Wire.Artifact>): seq<Wire.Part>
    decreases |arts|
  {
    if arts == [] then [] else AllArtifactParts(arts[..|arts| - 1]) + arts[|arts| - 1].parts
  }

  function AllTaskParts(task: Wire.Task): seq<Wire.Part> {
    AllArtifactParts(task.artifacts) + (if task.status.message.Some? then task.status.message.value.parts else [])
  }

  /** Decoding the artifacts one by one is decoding all their parts at once, and the IDs
      collected artifact by artifact are those of the whole run of parts. */
  lemma {:induction false} ArtifactsPartsFlatten(arts: seq<Wire.Artifact>)
    ensures ArtifactsParts(arts).Ok? <==> Parts.DecodeParts(AllArtifactParts(arts)).Ok?
    ensures ArtifactsParts(arts).Ok? ==>
              ArtifactsParts(arts).value.0 == Parts.DecodeParts(AllArtifactParts(arts)).value &&
              |AllArtifactParts(arts)| == |ArtifactsParts(arts).value.0| &&
              ArtifactsParts(arts).value.1 == LongRunningIDs(AllArtifactParts(arts), ArtifactsParts(arts).value.0)
    decreases |arts|
  {
    if arts != [] {
      var init, last := arts[..|arts| - 1], arts[|arts| - 1];
      ArtifactsPartsFlatten(init);
      MapResultAppend(Parts.DecodeFn(), AllArtifactParts(init), last.parts);
      PartsLaws.DecodePartsAligned(AllArtifactParts(init));
      PartsLaws.DecodePartsAligned(last.parts);
      if ArtifactsParts(arts).Ok? {
        var prev := ArtifactsParts(init).value;
        var ps := Parts.DecodeParts(last.parts).value;
        LongRunningIDsAppend(AllArtifactParts(init), prev.0, last.parts, ps);
      }
    }
  }

  /** A task snapshot's event holds the decoded parts of all its artifacts followed by
      those of its status message, and reports their long-running calls only when the
      task waits for input. */
  lemma TaskEventParts(ctx: Session.InvocationContext, task: Wire.Task)
    ensures TaskEvent(Some(ctx), task).Ok? <==> Parts.DecodeParts(AllTaskParts(task)).Ok?
    ensures TaskEvent(Some(ctx), task).Ok? ==>
              var e := TaskEvent(Some(ctx), task).value;
              var ps := Parts.DecodeParts(AllTaskParts(task)).value;
              |ps| == |AllTaskParts(task)| &&
              (e.response.content.Some? <==> |ps| > 0) &&
              (e.response.content.Some? ==> e.response.content.value == GenAI.Content(GenAI.RoleModel, ps)) &&
              e.response.customMetadata == Some(ToCustomMetadata(task.id, task.contextID)) &&
              e.longRunningToolIDs == (if task.status.state == Wire.InputRequired
                                       then LongRunningIDs(AllTaskParts(task), ps) else [])
  {
    var arts := task.artifacts;
    var mparts := if task.status.message.Some? then task.status.message.value.parts else [];
    ArtifactsPartsFlatten(arts);
    MapResultAppend(Parts.DecodeFn(), AllArtifactParts(arts), mparts);
    PartsLaws.DecodePartsAligned(AllTaskParts(task));
    PartsLaws.DecodePartsAligned(mparts);
    PartsLaws.DecodePartsAligned(AllArtifactParts(arts));
    assert task.status.message.None? ==> Parts.DecodeParts(mparts) == Ok([]);
    if TaskEvent(Some(ctx), task).Ok? {
      var a := ArtifactsParts(arts).value;
      var m := StatusParts(task.status.message).value;
      assert m.0 == Parts.DecodeParts(mparts).value;
      assert m.1 == LongRunningIDs(mparts, m.0);
      LongRunningIDsAppend(AllArtifactParts(arts), a.0, mparts, m.0);
    }
  }

  // ---- the entry point ----

  /** `ToSessionEvent`, with the non-final status branch as evidently intended. A final
      status update builds its event from the context without checking it, so a final
      update needs a context. */
  function SessionEventOf(ctx: Option<Session.InvocationContext>, ev: Wire.Event): (r: Result<Option<Session.Event>>)
    requires ev.StatusUpdateEvent? && ev.statusUpdate.final ==> ctx.Some?
    ensures ev.OtherEvent? ==> r.Err?
    ensures ev.ArtifactUpdateEvent? && ev.artifactUpdate.artifact.parts == [] ==> r == Ok(None)
    ensures ev.TaskEvent? || ev.MessageEvent? || (ev.StatusUpdateEvent? && ev.statusUpdate.final) ==>
              r.Err? || r.value.Some?
    ensures ev.ArtifactUpdateEvent? && r.Ok? && r.value.Some? ==>
              var e := r.value.value;
              e.response.content.Some? && e.response.content.value.role == GenAI.RoleModel &&
              e.response.customMetadata ==
              Some(ToCustomMetadata(ev.artifactUpdate.taskID, ev.artifactUpdate.contextID)) &&
              |ev.artifactUpdate.artifact.parts| == |e.response.content.value.parts| &&
              e.longRunningToolIDs ==
              LongRunningIDs(ev.artifactUpdate.artifact.parts, e.response.content.value.parts)
  {
    match ev
    case TaskEvent(task) =>
      var e :- TaskEvent(ctx, task);
      Ok(Some(e))
    case MessageEvent(msg) =>
      var e :- MessageToEvent(ctx, msg);
      Ok(Some(e))
    case ArtifactUpdateEvent(u) =>
      if |u.artifact.parts| == 0 then Ok(None)
      else
        (match ArtifactToEvent(ctx, u.artifact)
         case Err(e) => Err("artifact update event conversion failed: " + e)
         case Ok(event) =>
           var converted := event.response.content.value.parts;
           PartsLaws.DecodePartsAligned(u.artifact.parts);
           var event := event.(longRunningToolIDs := LongRunningIDs(u.artifact.parts, converted));
           Ok(Some(WithCustomMetadata(event, ToCustomMetadata(u.taskID, u.contextID)))))
    case StatusUpdateEvent(u) =>
      if u.final then
        var e :- FinalStatusToEvent(ctx.value, u);
        Ok(Some(e))
      else InterimStatusToEvent(ctx, u)
    case OtherEvent(name) => Err("unknown event type: " + name)
  }

  /** `ToSessionEvent`. */
  method ToSessionEvent(ctx: Option<Session.InvocationContext>, ev: Wire.Event) returns (r: Result<Option<Session.Event>>)
    requires ev.StatusUpdateEvent? && ev.statusUpdate.final ==> ctx.Some?
    ensures r == SessionEventOf(ctx, ev)
  {
    match ev
    case TaskEvent(task) =>
      var e := TaskToEvent(ctx, task);
      if e.Err? {
        return Err(e.error);
      }
      return Ok(Some(e.value));
    case MessageEvent(msg) =>
      var e := MessageToEvent(ctx, msg);
      if e.Err? {
        return Err(e.error);
      }
      return Ok(Some(e.value));
    case ArtifactUpdateEvent(u) =>
      if |u.artifact.parts| == 0 {
        return Ok(None);
      }
      var e := ArtifactToEvent(ctx, u.artifact);
      if e.Err? {
        return Err("artifact update event conversion failed: " + e.error);
      }
      var event := e.value;
      PartsLaws.DecodePartsAligned(u.artifact.parts);
      var ids := GetLongRunningToolIDs(u.artifact.parts, event.response.content.value.parts);
      event := event.(longRunningToolIDs := ids);
      return Ok(Some(WithCustomMetadata(event, ToCustomMetadata(u.taskID, u.contextID))));
    case StatusUpdateEvent(u) =>
      if u.final {
        var e := FinalStatusToEvent(ctx.value, u);
        if e.Err? {
          return Err(e.error);
        }
        return Ok(Some(e.value));
      }
      if u.status.message.None? {
        return Ok(None);
      }
      var e := MessageToEvent(ctx, u.status.message.value);
      if e.Err? {
        return Err("custom metadata conversion failed: " + e.error);
      }
      var event := WithCustomMetadata(e.value, ToCustomMetadata(u.taskID, u.contextID));
      if event.response.content.None? || |event.response.content.value.parts| == 0 {
        return Ok(None);
      }
      var c := event.response.content.value;
      var parts := c.parts;
      for i := 0 to |parts|
        invariant |parts| == |c.parts|
        invariant forall j | 0 <= j < i :: parts[j] == c.parts[j].(thought := true)
        invariant forall j | i <= j < |parts| :: parts[j] == c.parts[j]
      {
        parts := parts[i := parts[i].(thought := true)];
      }
      assert parts == MarkThoughts(c.parts);
      return Ok(Some(event.(response := event.response.(content := Some(c.(parts := parts))))));
    case OtherEvent(name) =>
      return Err("unknown event type: " + name);
  }
}
