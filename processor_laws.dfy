/** Properties of the event processor: what one `process` call may change, which terminal
    status wins, and how the response artifact's identity is kept across chunks. */
module ProcessorLaws {
  import opened Wrappers
  import opened Values
  import GenAI
  import Wire
  import Session
  import ServerMetadata
  import Parts
  import Text
  import opened Processor

  /** A quote inside the model's message is escaped in the failure text, as `%q` does. */
  lemma ErrorFromResponseEscapes(resp: Session.LLMResponse)
    requires resp.errorMessage == "a\"b"
    ensures ErrorFromResponse(resp) == "llm error response: \"a\\\"b\""
  {
    var b, qb, m := "b", "\"b", "a\"b";
    assert b[1..] == [] && qb[1..] == b && m[1..] == qb;
    assert Text.Escape(b) == b;
    assert Text.Escape(qb) == ['\\', '"'] + b;
    assert Text.Escape(m) == ['a'] + Text.Escape(qb);
    assert Text.Quote(m) == "\"a\\\"b\"";
  }

  /** The states the processor can reach from `InitialState`: both kinds of stored update
      live under the Failed key, and every stored update is final. */
  predicate StateValid(s: ProcState) {
    && s.terminalEvents.Keys <= {Wire.Failed}
    && forall k | k in s.terminalEvents ::
         s.terminalEvents[k].final && s.terminalEvents[k].status.state in {Wire.Failed, Wire.InputRequired}
  }

  lemma InitialStateValid()
    ensures StateValid(InitialState) && InitialState.responseID == ""
  {
  }

  /** Whether a (present) event's content carries a call to one of its long-running tools. */
  predicate CallsLongRunning(e: Session.Event) {
    e.response.content.Some? && |e.response.content.value.parts| > 0 &&
    InputRequiredBy(e.longRunningToolIDs, e.response.content.value.parts)
  }

  lemma StepPreservesValid(info: Wire.TaskInfo, meta: ServerMetadata.InvocationMeta, s: ProcState,
                           event: Option<Session.Event>, freshID: string)
    requires StateValid(s)
    ensures StateValid(Step(info, meta, s, event, freshID).1)
  {
    if event.Some? && ServerMetadata.EventMeta(meta, event.value).Ok? {
      var e := event.value;
      var s1 := RecordError(info, s, e.response, ServerMetadata.EventMeta(meta, e).value);
      assert StateValid(s1);
      if e.response.content.Some? && |e.response.content.value.parts| > 0 {
        var s2 := RecordInputRequired(info, s1, e, e.response.content.value.parts);
        assert StateValid(s2);
      }
    }
  }

  /** No event, or an event whose metadata cannot be computed, changes nothing. */
  lemma StepWithoutMetaChangesNothing(info: Wire.TaskInfo, meta: ServerMetadata.InvocationMeta, s: ProcState,
                                      event: Option<Session.Event>, freshID: string)
    requires event.None? || ServerMetadata.EventMeta(meta, event.value).Err?
    ensures Step(info, meta, s, event, freshID).1 == s
    ensures event.None? ==> Step(info, meta, s, event, freshID).0 == Ok(None)
    ensures event.Some? ==> Step(info, meta, s, event, freshID).0 == Err(ServerMetadata.EventMeta(meta, event.value).error)
  {
  }

  /** The response artifact's ID is allocated once and then reused for every chunk; a step
      that emits no chunk leaves it alone. */
  lemma ResponseIDStable(info: Wire.TaskInfo, meta: ServerMetadata.InvocationMeta, s: ProcState,
                         event: Option<Session.Event>, freshID: string)
    ensures s.responseID != "" ==> Step(info, meta, s, event, freshID).1.responseID == s.responseID
    ensures s.responseID == "" ==> Step(info, meta, s, event, freshID).1.responseID in {"", freshID}
    ensures Step(info, meta, s, event, freshID).0.Ok? && Step(info, meta, s, event, freshID).0.value.Some? ==>
              var u := Step(info, meta, s, event, freshID).0.value.value;
              && u.artifact.id == Step(info, meta, s, event, freshID).1.responseID
              && u.artifact.id == (if s.responseID == "" then freshID else s.responseID)
    ensures Step(info, meta, s, event, freshID).0 == Ok(None) ==> Step(info, meta, s, event, freshID).1.responseID == s.responseID
  {
  }

  /** Every emitted chunk belongs to the task's response artifact: it carries the task's
      identifiers, is not the last chunk, holds the converted parts, and carries metadata
      exactly when the event's metadata is non-empty. It is marked as appended exactly
      when the artifact was already started, so the first chunk is not. */
  lemma ArtifactChunk(info: Wire.TaskInfo, meta: ServerMetadata.InvocationMeta, s: ProcState,
                      e: Session.Event, freshID: string)
    requires Step(info, meta, s, Some(e), freshID).0.Ok? && Step(info, meta, s, Some(e), freshID).0.value.Some?
    ensures var u := Step(info, meta, s, Some(e), freshID).0.value.value;
            && ServerMetadata.EventMeta(meta, e).Ok?
            && e.response.content.Some? && |e.response.content.value.parts| > 0
            && u.taskID == info.taskID && u.contextID == info.contextID && !u.lastChunk
            && (u.append <==> s.responseID != "")
            && Parts.EncodeParts(e.response.content.value.parts, e.longRunningToolIDs) == Ok(u.artifact.parts)
            && (u.metadata.Some? <==> |ServerMetadata.EventMeta(meta, e).value| > 0)
            && (u.metadata.Some? ==> u.metadata.value == ServerMetadata.EventMeta(meta, e).value)
  {
  }

  /** An event without content parts produces no chunk and leaves the response ID alone. */
  lemma NoContentNoChunk(info: Wire.TaskInfo, meta: ServerMetadata.InvocationMeta, s: ProcState,
                         e: Session.Event, freshID: string)
    requires e.response.content.None? || |e.response.content.value.parts| == 0
    ensures Step(info, meta, s, Some(e), freshID).0.Ok? ==> Step(info, meta, s, Some(e), freshID).0 == Ok(None)
    ensures Step(info, meta, s, Some(e), freshID).1.responseID == s.responseID
  {
  }

  /** A model error is recorded only while nothing is stored yet, and it is the Failed
      status carrying the quoted message. */
  lemma ErrorRecorded(info: Wire.TaskInfo, meta: ServerMetadata.InvocationMeta, s: ProcState,
                      e: Session.Event, freshID: string)
    requires ServerMetadata.EventMeta(meta, e).Ok? && e.response.errorCode != ""
    requires Wire.Failed !in s.terminalEvents && !CallsLongRunning(e)
    ensures Step(info, meta, s, Some(e), freshID).1.terminalEvents ==
            s.terminalEvents[Wire.Failed := TaskFailedUpdate(info, ErrorFromResponse(e.response), ServerMetadata.EventMeta(meta, e).value)]
  {
  }

  /** The stored updates after one step: the model error, then the input-required update,
      each recorded as `process` records it; the conversion and the chunk do not touch them. */
  lemma StepTerminalEvents(info: Wire.TaskInfo, meta: ServerMetadata.InvocationMeta, s: ProcState,
                           e: Session.Event, freshID: string)
    requires ServerMetadata.EventMeta(meta, e).Ok?
    ensures var s1 := RecordError(info, s, e.response, ServerMetadata.EventMeta(meta, e).value);
            Step(info, meta, s, Some(e), freshID).1.terminalEvents
            == if e.response.content.None? || |e.response.content.value.parts| == 0 then s1.terminalEvents
               else RecordInputRequired(info, s1, e, e.response.content.value.parts).terminalEvents
  {
    if e.response.content.Some? && |e.response.content.value.parts| > 0 {
      var parts := e.response.content.value.parts;
      var eventMeta := ServerMetadata.EventMeta(meta, e).value;
      var s2 := RecordInputRequired(info, RecordError(info, s, e.response, eventMeta), e, parts);
      match Parts.EncodeParts(parts, e.longRunningToolIDs)
      case Err(_) =>
      case Ok(wps) =>
        assert Chunk(info, s2, eventMeta, wps, freshID).1.terminalEvents == s2.terminalEvents;
    }
  }

  /** A stored update is never replaced by a later model error: only an input-required
      update can replace it. */
  lemma StoredUpdateKept(info: Wire.TaskInfo, meta: ServerMetadata.InvocationMeta, s: ProcState,
                         event: Option<Session.Event>, freshID: string)
    requires Wire.Failed in s.terminalEvents
    ensures var t := Step(info, meta, s, event, freshID).1.terminalEvents;
            Wire.Failed in t && (t[Wire.Failed] == s.terminalEvents[Wire.Failed] || t[Wire.Failed] == InputRequiredUpdate(info))
    ensures event.Some? && !CallsLongRunning(event.value) ==>
              Step(info, meta, s, event, freshID).1.terminalEvents == s.terminalEvents
  {
    if event.Some? && ServerMetadata.EventMeta(meta, event.value).Ok? {
      StepTerminalEvents(info, meta, s, event.value, freshID);
    }
  }

  /** A call to a long-running tool stores the input-required update, whatever was stored
      before, and even when the parts then fail to convert. */
  lemma InputRequiredRecorded(info: Wire.TaskInfo, meta: ServerMetadata.InvocationMeta, s: ProcState,
                              e: Session.Event, freshID: string)
    requires ServerMetadata.EventMeta(meta, e).Ok? && CallsLongRunning(e)
    ensures Wire.Failed in Step(info, meta, s, Some(e), freshID).1.terminalEvents
    ensures Step(info, meta, s, Some(e), freshID).1.terminalEvents[Wire.Failed] == InputRequiredUpdate(info)
  {
    StepTerminalEvents(info, meta, s, e, freshID);
  }

  /** In a reachable state the closing status is the stored update, else Completed. */
  lemma TerminalStatus(info: Wire.TaskInfo, meta: ServerMetadata.InvocationMeta, s: ProcState)
    requires StateValid(s)
    ensures var last := TerminalEvents(info, meta, s)[|TerminalEvents(info, meta, s)| - 1].statusUpdate;
            && last.final
            && last.status.state in {Wire.Failed, Wire.InputRequired, Wire.Completed}
            && (last.status.state == Wire.Completed <==> s.terminalEvents == map[])
            && (Wire.Failed in s.terminalEvents ==> last == s.terminalEvents[Wire.Failed])
  {
    var last := TerminalEvents(info, meta, s)[|TerminalEvents(info, meta, s)| - 1].statusUpdate;
    if Wire.Failed in s.terminalEvents {
      assert last == s.terminalEvents[Wire.Failed];
    } else {
      assert s.terminalEvents == map[];
      assert last == CompletedUpdate(info, meta);
    }
  }

  /** A model error followed by a long-running call ends the task as input-required rather
      than failed: the second update is stored under the Failed key and replaces the first,
      so the documented priority of Failed over InputRequired does not hold. */
  lemma InputRequiredOverridesEarlierError(info: Wire.TaskInfo, meta: ServerMetadata.InvocationMeta,
                                           e1: Session.Event, e2: Session.Event, id1: string, id2: string)
    requires ServerMetadata.EventMeta(meta, e1).Ok? && e1.response.errorCode != "" && !CallsLongRunning(e1)
    requires ServerMetadata.EventMeta(meta, e2).Ok? && CallsLongRunning(e2)
    ensures var s1 := Step(info, meta, InitialState, Some(e1), id1).1;
            var s2 := Step(info, meta, s1, Some(e2), id2).1;
            && Wire.Failed in s1.terminalEvents
            && s1.terminalEvents[Wire.Failed].status.state == Wire.Failed
            && TerminalEvents(info, meta, s2)[|TerminalEvents(info, meta, s2)| - 1].statusUpdate.status.state == Wire.InputRequired
  {
    var s1 := Step(info, meta, InitialState, Some(e1), id1).1;
    ErrorRecorded(info, meta, InitialState, e1, id1);
    var s2 := Step(info, meta, s1, Some(e2), id2).1;
    InputRequiredRecorded(info, meta, s1, e2, id2);
  }

  /** Once input is required, a later model error is not reported. */
  lemma ErrorAfterInputRequiredHidden(info: Wire.TaskInfo, meta: ServerMetadata.InvocationMeta,
                                      e1: Session.Event, e2: Session.Event, id1: string, id2: string)
    requires ServerMetadata.EventMeta(meta, e1).Ok? && CallsLongRunning(e1)
    requires e2.response.errorCode != "" && !CallsLongRunning(e2)
    ensures var s1 := Step(info, meta, InitialState, Some(e1), id1).1;
            var s2 := Step(info, meta, s1, Some(e2), id2).1;
            TerminalEvents(info, meta, s2)[|TerminalEvents(info, meta, s2)| - 1].statusUpdate == InputRequiredUpdate(info)
  {
    var s1 := Step(info, meta, InitialState, Some(e1), id1).1;
    InputRequiredRecorded(info, meta, InitialState, e1, id1);
    StoredUpdateKept(info, meta, s1, Some(e2), id2);
  }

  /** The metadata of a failure event comes from the event when it can be computed. */
  lemma FailedEventMeta(info: Wire.TaskInfo, meta: ServerMetadata.InvocationMeta, cause: string, e: Session.Event)
    ensures TaskFailedEvent(info, meta, cause, None).metadata == Some(meta.eventMeta)
    ensures ServerMetadata.EventMeta(meta, e).Ok? ==>
              TaskFailedEvent(info, meta, cause, Some(e)).metadata == Some(ServerMetadata.EventMeta(meta, e).value)
    ensures TaskFailedEvent(info, meta, cause, Some(e)).status.message.value.taskID == info.taskID
  {
  }
}
