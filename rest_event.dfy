/** The event record of the REST API (server/restapi/models/event.go) and its two
    field-by-field conversions to and from the session event. */
module RestEvent {
  import opened Wrappers
  import opened Values
  import GenAI
  import Session

  /** `EventActions`: the actions as the REST API carries them. */
  datatype EventActions = EventActions(stateDelta: Meta, artifactDelta: map<string, int>)

  /** `Event`: the session event flattened, with its time in whole seconds. */
  datatype Event = Event(
    id: string,
    time: int,
    invocationID: string,
    branch: string,
    author: string,
    partial: bool,
    longRunningToolIDs: seq<string>,
    content: Option<GenAI.Content>,
    groundingMetadata: Option<Fields>,
    turnComplete: bool,
    interrupted: bool,
    errorCode: string,
    errorMessage: string,
    actions: EventActions)

  /** `time.Unix(seconds, 0)`. */
  function UnixTime(seconds: int): (t: Session.Timestamp)
    ensures t.Valid() && t.seconds == seconds && t.nanos == 0
  {
    Session.Timestamp(seconds, 0)
  }

  /** `ToSessionEvent`. Every field of the record lands in the session field of the
      same name; the session event gets no custom metadata. */
  function ToSessionEvent(event: Event): (e: Session.Event)
    ensures e.timestamp.Valid() && e.timestamp.nanos == 0
    ensures e.response.customMetadata.None?
  {
    Session.Event(
      event.id,
      UnixTime(event.time),
      event.invocationID,
      event.branch,
      event.author,
      event.longRunningToolIDs,
      Session.LLMResponse(
        event.content,
        event.groundingMetadata,
        None,
        event.partial,
        event.turnComplete,
        event.interrupted,
        event.errorCode,
        event.errorMessage),
      Session.Actions(event.actions.stateDelta, event.actions.artifactDelta))
  }

  /** `FromSessionEvent`. The time keeps only its whole seconds (`Timestamp.Unix()`),
      and what the record has no field for is dropped. */
  function FromSessionEvent(e: Session.Event): (event: Event)
    ensures event.time == e.timestamp.seconds
  {
    Event(
      e.id,
      e.timestamp.seconds,
      e.invocationID,
      e.branch,
      e.author,
      e.response.partial,
      e.longRunningToolIDs,
      e.response.content,
      e.response.groundingMetadata,
      e.response.turnComplete,
      e.response.interrupted,
      e.response.errorCode,
      e.response.errorMessage,
      EventActions(e.actions.stateDelta, e.actions.artifactDelta))
  }

  /** Converting a record to a session event and back gives the record again. */
  lemma RecordRoundTrip(event: Event)
    ensures FromSessionEvent(ToSessionEvent(event)) == event
  {
  }

  /** Each record field is carried to the session field of the same name, and no two
      are swapped. */
  lemma RecordFieldsCarried(event: Event)
    ensures var e := ToSessionEvent(event);
      && e.id == event.id
      && e.timestamp.seconds == event.time
      && e.invocationID == event.invocationID
      && e.branch == event.branch
      && e.author == event.author
      && e.longRunningToolIDs == event.longRunningToolIDs
      && e.response.content == event.content
      && e.response.groundingMetadata == event.groundingMetadata
      && e.response.partial == event.partial
      && e.response.turnComplete == event.turnComplete
      && e.response.interrupted == event.interrupted
      && e.response.errorCode == event.errorCode
      && e.response.errorMessage == event.errorMessage
      && e.actions.stateDelta == event.actions.stateDelta
      && e.actions.artifactDelta == event.actions.artifactDelta
  {
  }

  /** The other way round the trip is exact only for a session event at a whole second
      with no custom metadata: otherwise it comes back truncated to the second and
      without its custom metadata. */
  lemma SessionRoundTrip(e: Session.Event)
    ensures ToSessionEvent(FromSessionEvent(e))
            == e.(timestamp := UnixTime(e.timestamp.seconds),
                  response := e.response.(customMetadata := None))
    ensures ToSessionEvent(FromSessionEvent(e)) == e
            <==> e.timestamp.nanos == 0 && e.response.customMetadata.None?
  {
  }

  /** Session events that differ only in their sub-second time and their custom
      metadata become the same record. */
  lemma FromSessionEventForgets(e: Session.Event, nanos: int, custom: Option<Meta>)
    ensures FromSessionEvent(e.(timestamp := Session.Timestamp(e.timestamp.seconds, nanos),
                                response := e.response.(customMetadata := custom)))
            == FromSessionEvent(e)
  {
  }
}
