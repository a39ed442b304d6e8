/** The local session model: a session event (`session.Event` with its embedded
    `model.LLMResponse`), its actions, and the invocation context an agent runs in. */
module Session {
  import opened Wrappers
  import opened Values
  import GenAI

  /** A point in time: whole seconds since the Unix epoch and the nanoseconds within. */
  datatype Timestamp = Timestamp(seconds: int, nanos: int) {
    predicate Valid() { 0 <= nanos < 1_000_000_000 }
  }

  datatype Actions = Actions(stateDelta: Meta, artifactDelta: map<string, int>)

  /** `model.LLMResponse`. The grounding metadata is a struct, so its JSON form is an
      object: its fields are kept. */
  datatype LLMResponse = LLMResponse(
    content: Option<GenAI.Content>,
    groundingMetadata: Option<Fields>,
    customMetadata: Option<Meta>,
    partial: bool,
    turnComplete: bool,
    interrupted: bool,
    errorCode: string,
    errorMessage: string)

  datatype Event = Event(
    id: string,
    timestamp: Timestamp,
    invocationID: string,
    branch: string,
    author: string,
    longRunningToolIDs: seq<string>,
    response: LLMResponse,
    actions: Actions)

  const EmptyResponse := LLMResponse(None, None, None, false, false, false, "", "")

  const NoActions := Actions(map[], map[])

  /** `session.NewEvent`. The fresh identifier and the current time it assigns are not
      modelled: the event gets an empty identifier and the zero time. */
  function NewEvent(invocationID: string): (e: Event)
    ensures e.invocationID == invocationID && e.author == "" && e.branch == ""
    ensures e.response == EmptyResponse && e.longRunningToolIDs == []
  {
    Event("", Timestamp(0, 0), invocationID, "", "", [], EmptyResponse, NoActions)
  }

  /** What the bridge reads of `agent.InvocationContext`. */
  datatype InvocationContext = InvocationContext(
    invocationID: string,
    agentName: string,
    branch: string)
}
