/** The per-invocation event processor (server/adka2a/processor.go). It turns each local
    session event into at most one artifact chunk of the task's single response artifact
    and remembers, outside the stream, the terminal status the task will end with. */
module Processor {
  import opened Wrappers
  import opened Values
  import Text
  import GenAI
  import Wire
  import Session
  import ServerMetadata
  import Parts

  /** The processor's mutable fields: the response artifact's ID ("" until the first chunk
      is emitted) and the terminal status updates, keyed by task state. */
  datatype ProcState = ProcState(responseID: string, terminalEvents: map<Wire.TaskState, Wire.StatusUpdate>)

  const InitialState := ProcState("", map[])

  const ErrorResponsePrefix := "llm error response: "

  /** `errorFromResponse`: the text of the error built from a model response's message. */
  function ErrorFromResponse(resp: Session.LLMResponse): (msg: string)
    ensures |msg| >= |ErrorResponsePrefix| + |resp.errorMessage| + 2
    ensures msg[..|ErrorResponsePrefix|] == ErrorResponsePrefix
    ensures msg[|ErrorResponsePrefix|] == '"' && msg[|msg| - 1] == '"'
    ensures Text.Unescape(msg[|ErrorResponsePrefix| + 1..|msg| - 1]) == resp.errorMessage
    ensures Text.Plain(resp.errorMessage) ==> msg[|ErrorResponsePrefix| + 1..|msg| - 1] == resp.errorMessage
  {
    var q := Text.Quote(resp.errorMessage);
    AfterPrefix(ErrorResponsePrefix, q);
    ErrorResponsePrefix + q
  }

  /** What follows a prefix in a concatenation is the second part, index by index. */
  lemma AfterPrefix(p: string, q: string)
    requires |q| >= 2
    ensures (p + q)[..|p|] == p && (p + q)[|p|] == q[0] && (p + q)[|p| + |q| - 1] == q[|q| - 1]
    ensures (p + q)[|p| + 1..|p| + |q| - 1] == q[1..|q| - 1]
  {
  }

  /** `toTaskFailedUpdateEvent`: the final Failed status whose agent message is the cause's
      text, with the given metadata. */
  function TaskFailedUpdate(info: Wire.TaskInfo, cause: string, meta: Meta): (u: Wire.StatusUpdate)
    ensures u.taskID == info.taskID && u.contextID == info.contextID
    ensures u.status.state == Wire.Failed && u.final && u.metadata == Some(meta)
    ensures u.status.message ==
            Some(Wire.Message(Wire.RoleAgent, [Wire.TextPart(cause, map[])], info.taskID, info.contextID))
  {
    var msg := Wire.NewMessageForTask(Wire.RoleAgent, info, [Wire.TextPart(cause, map[])]);
    Wire.NewStatusUpdate(info, Wire.Failed, Some(msg)).(metadata := Some(meta), final := true)
  }

  /** The final InputRequired status stored when a long-running call is seen. */
  function InputRequiredUpdate(info: Wire.TaskInfo): (u: Wire.StatusUpdate)
    ensures u.taskID == info.taskID && u.contextID == info.contextID
    ensures u.status == Wire.TaskStatus(Wire.InputRequired, None) && u.final && u.metadata.None?
  {
    Wire.NewStatusUpdate(info, Wire.InputRequired, None).(final := true)
  }

  /** Some part is a call to one of the long-running tools. */
  predicate InputRequiredBy(longRunningToolIDs: seq<string>, parts: seq<GenAI.Part>) {
    exists i | 0 <= i < |parts| :: parts[i].functionCall.Some? && parts[i].functionCall.value.id in longRunningToolIDs
  }

  /** `isInputRequired`. */
  method IsInputRequired(event: Session.Event, parts: seq<GenAI.Part>) returns (b: bool)
    ensures b <==> InputRequiredBy(event.longRunningToolIDs, parts)
  {
    for i := 0 to |parts|
      invariant forall j | 0 <= j < i :: !(parts[j].functionCall.Some? && parts[j].functionCall.value.id in event.longRunningToolIDs)
    {
      var p := parts[i];
      if p.functionCall.Some? && p.functionCall.value.id in event.longRunningToolIDs {
        return true;
      }
    }
    return false;
  }

  /** A model error is stored as the Failed update unless an update is already stored. */
  function RecordError(info: Wire.TaskInfo, s: ProcState, resp: Session.LLMResponse, eventMeta: Meta): (t: ProcState)
    ensures t.responseID == s.responseID
  {
    if resp.errorCode != "" && Wire.Failed !in s.terminalEvents
    then s.(terminalEvents := s.terminalEvents[Wire.Failed := TaskFailedUpdate(info, ErrorFromResponse(resp), eventMeta)])
    else s
  }

  /** A call to a long-running tool stores the input-required update, under the Failed key. */
  function RecordInputRequired(info: Wire.TaskInfo, s: ProcState, e: Session.Event, parts: seq<GenAI.Part>): (t: ProcState)
    ensures t.responseID == s.responseID
  {
    if InputRequiredBy(e.longRunningToolIDs, parts)
    then s.(terminalEvents := s.terminalEvents[Wire.Failed := InputRequiredUpdate(info)])
    else s
  }

  /** The chunk for converted parts, allocating the response ID on the first one. */
  function Chunk(info: Wire.TaskInfo, s: ProcState, eventMeta: Meta, wps: seq<Wire.Part>, freshID: string)
    : (r: (Wire.ArtifactUpdate, ProcState))
    ensures r.1 == s.(responseID := r.0.artifact.id)
    ensures r.0.artifact.id == if s.responseID == "" then freshID else s.responseID
    ensures r.0.append <==> s.responseID != ""
  {
    var id := if s.responseID == "" then freshID else s.responseID;
    var u := if s.responseID == "" then Wire.NewArtifactEvent(info, id, wps) else Wire.NewArtifactUpdate(info, id, wps);
    var u := if |eventMeta| > 0 then u.(metadata := Some(eventMeta)) else u;
    (u, s.(responseID := id))
  }

  /** One call of `process`: its result and the processor's next state. The state
      changes made before a failure are kept. */
  function Step(info: Wire.TaskInfo, meta: ServerMetadata.InvocationMeta, s: ProcState,
                event: Option<Session.Event>, freshID: string): (Result<Option<Wire.ArtifactUpdate>>, ProcState)
  {
    if event.None? then (Ok(None), s)
    else
      var e := event.value;
      match ServerMetadata.EventMeta(meta, e)
      case Err(err) => (Err(err), s)
      case Ok(eventMeta) =>
        var s1 := RecordError(info, s, e.response, eventMeta);
        if e.response.content.None? || |e.response.content.value.parts| == 0 then (Ok(None), s1)
        else
          var parts := e.response.content.value.parts;
          var s2 := RecordInputRequired(info, s1, e, parts);
          match Parts.EncodeParts(parts, e.longRunningToolIDs)
          case Err(err) => (Err(err), s2)
          case Ok(wps) =>
            var (u, s3) := Chunk(info, s2, eventMeta, wps, freshID);
            (Ok(Some(u)), s3)
  }

  /** The closing Completed status, final and carrying the invocation's metadata. */
  function CompletedUpdate(info: Wire.TaskInfo, meta: ServerMetadata.InvocationMeta): (u: Wire.StatusUpdate)
    ensures u.taskID == info.taskID && u.contextID == info.contextID
    ensures u.status == Wire.TaskStatus(Wire.Completed, None) && u.final && u.metadata == Some(meta.eventMeta)
  {
    Wire.NewStatusUpdate(info, Wire.Completed, None).(metadata := Some(meta.eventMeta), final := true)
  }

  /** The outcome of `makeTerminalEvents`: the last chunk of the response artifact if one
      was started, then the stored Failed status, else the stored InputRequired status,
      else Completed. */
  function TerminalEvents(info: Wire.TaskInfo, meta: ServerMetadata.InvocationMeta, s: ProcState): (r: seq<Wire.Event>)
    ensures 1 <= |r| <= 2 && (|r| == 2 <==> s.responseID != "")
    ensures r[|r| - 1].StatusUpdateEvent?
    ensures s.responseID != "" ==>
              r[0] == Wire.ArtifactUpdateEvent(Wire.NewArtifactUpdate(info, s.responseID, []).(lastChunk := true))
    ensures s.responseID != "" ==>
              && r[0].ArtifactUpdateEvent? && r[0].artifactUpdate.artifact == Wire.Artifact(s.responseID, [])
              && r[0].artifactUpdate.append && r[0].artifactUpdate.lastChunk
    ensures r[|r| - 1].statusUpdate ==
            if Wire.Failed in s.terminalEvents then s.terminalEvents[Wire.Failed]
            else if Wire.InputRequired in s.terminalEvents then s.terminalEvents[Wire.InputRequired]
            else CompletedUpdate(info, meta)
  {
    var head := if s.responseID != ""
                then [Wire.ArtifactUpdateEvent(Wire.NewArtifactUpdate(info, s.responseID, []).(lastChunk := true))]
                else [];
    var last := if Wire.Failed in s.terminalEvents then s.terminalEvents[Wire.Failed]
                else if Wire.InputRequired in s.terminalEvents then s.terminalEvents[Wire.InputRequired]
                else CompletedUpdate(info, meta);
    head + [Wire.StatusUpdateEvent(last)]
  }

  /** `makeTaskFailedEvent`: a Failed status for `cause`, carrying the event's metadata when
      an event is given and its metadata can be computed, and the invocation's otherwise. */
  function TaskFailedEvent(info: Wire.TaskInfo, meta: ServerMetadata.InvocationMeta, cause: string,
                           event: Option<Session.Event>): (u: Wire.StatusUpdate)
    ensures u.status.state == Wire.Failed && u.final
    ensures u.status.message.Some? && u.status.message.value.parts == [Wire.TextPart(cause, map[])]
    ensures u.metadata ==
            if event.Some? && ServerMetadata.EventMeta(meta, event.value).Ok?
            then Some(ServerMetadata.EventMeta(meta, event.value).value) else Some(meta.eventMeta)
  {
    var m := if event.Some? && ServerMetadata.EventMeta(meta, event.value).Ok?
             then ServerMetadata.EventMeta(meta, event.value).value else meta.eventMeta;
    TaskFailedUpdate(info, cause, m)
  }

  /** `eventProcessor`. */
  class EventProcessor {
    const info: Wire.TaskInfo
    const meta: ServerMetadata.InvocationMeta
    var responseID: string
    var terminalEvents: map<Wire.TaskState, Wire.StatusUpdate>

    function State(): ProcState
      reads this
    {
      ProcState(responseID, terminalEvents)
    }

    /** `newEventProcessor`. */
    constructor (info: Wire.TaskInfo, meta: ServerMetadata.InvocationMeta)
      ensures this.info == info && this.meta == meta && State() == InitialState
    {
      this.info := info;
      this.meta := meta;
      responseID := "";
      terminalEvents := map[];
    }

    /** `process`. `freshID` is the identifier `a2a.NewArtifactEvent` allocates. */
    method Process(event: Option<Session.Event>, freshID: string) returns (r: Result<Option<Wire.ArtifactUpdate>>)
      modifies this
      ensures (r, State()) == Step(info, meta, old(State()), event, freshID)
    {
      if event.None? {
        return Ok(None);
      }
      var e := event.value;
      var eventMeta := ServerMetadata.ToEventMeta(meta, e);
      if eventMeta.Err? {
        return Err(eventMeta.error);
      }
      var resp := e.response;
      if resp.errorCode != "" {
        if Wire.Failed !in terminalEvents {
          terminalEvents := terminalEvents[Wire.Failed := TaskFailedUpdate(info, ErrorFromResponse(resp), eventMeta.value)];
        }
      }
      if resp.content.None? || |resp.content.value.parts| == 0 {
        return Ok(None);
      }
      var inputRequired := IsInputRequired(e, resp.content.value.parts);
      if inputRequired {
        var ev := Wire.NewStatusUpdate(info, Wire.InputRequired, None);
        ev := ev.(final := true);
        terminalEvents := terminalEvents[Wire.Failed := ev];
      }
      var parts := Parts.ToA2AParts(resp.content.value.parts, e.longRunningToolIDs);
      if parts.Err? {
        return Err(parts.error);
      }
      var result;
      if responseID == "" {
        result := Wire.NewArtifactEvent(info, freshID, parts.value);
        responseID := result.artifact.id;
      } else {
        result := Wire.NewArtifactUpdate(info, responseID, parts.value);
      }
      if |eventMeta.value| > 0 {
        result := result.(metadata := Some(eventMeta.value));
      }
      return Ok(Some(result));
    }

    /** `makeTerminalEvents`: the two stored states checked in priority order. */
    method MakeTerminalEvents() returns (result: seq<Wire.Event>)
      ensures result == TerminalEvents(info, meta, State())
    {
      result := [];
      if responseID != "" {
        var ev := Wire.NewArtifactUpdate(info, responseID, []);
        ev := ev.(lastChunk := true);
        result := result + [Wire.ArtifactUpdateEvent(ev)];
      }
      ghost var head := result;
      var states := [Wire.Failed, Wire.InputRequired];
      for i := 0 to |states|
        invariant result == head
        invariant forall j | 0 <= j < i :: states[j] !in terminalEvents
      {
        if states[i] in terminalEvents {
          assert i == 1 ==> states[0] !in terminalEvents;
          result := result + [Wire.StatusUpdateEvent(terminalEvents[states[i]])];
          return result;
        }
      }
      var ev := Wire.NewStatusUpdate(info, Wire.Completed, None);
      ev := ev.(metadata := Some(meta.eventMeta), final := true);
      assert Wire.Failed !in terminalEvents && Wire.InputRequired !in terminalEvents by {
        assert states[0] == Wire.Failed && states[1] == Wire.InputRequired;
      }
      result := result + [Wire.StatusUpdateEvent(ev)];
    }
  }
}
