/** The remote agent (agent/remoteagent/a2a_agent.go): an agent whose turns are run by an
    A2A peer. A turn resolves the peer's agent card, opens a client, builds the outgoing
    message from the local session, streams the peer's events back and translates them
    into session events. The card fetch, the file read, the JSON decoder, the client and
    the stream are parameters; the consumer of the yielded events is reduced to the
    number of events it accepts before it asks the run to stop. */
module RemoteAgent {
  import opened Wrappers
  import opened Values
  import Text
  import Wire
  import Session
  import Parts
  import Events
  import RemoteHistory

  // ---- configuration and construction ----

  /** The agent card, reduced to what identifies it. */
  datatype AgentCard = AgentCard(name: string, url: string)

  /** `A2AConfig`; the resolver options, the client factory and the send configuration
      live in the I/O parameters below. */
  datatype A2AConfig = A2AConfig(name: string, description: string, agentCard: Option<AgentCard>, agentCardSource: string)

  const MissingCardError := "either AgentCard or AgentCardSource must be provided"

  // ---- agent card resolution ----

  /** Where `resolveAgentCard` takes the card from. */
  datatype CardSource = Configured(card: AgentCard) | RemoteCard(url: string) | FileCard(path: string)

  /** The branch `resolveAgentCard` takes: the configured card if there is one, the remote
      resolver for an http(s) URL, and otherwise a file. */
  function CardSourceOf(cfg: A2AConfig): (r: CardSource)
    ensures r.Configured? <==> cfg.agentCard.Some?
    ensures r.Configured? ==> r.card == cfg.agentCard.value
    ensures r.RemoteCard? <==>
              cfg.agentCard.None? &&
              (Text.HasPrefix(cfg.agentCardSource, "http://") || Text.HasPrefix(cfg.agentCardSource, "https://"))
    ensures r.RemoteCard? ==> r.url == cfg.agentCardSource
    ensures r.FileCard? ==> r.path == cfg.agentCardSource
  {
    if cfg.agentCard.Some? then Configured(cfg.agentCard.value)
    else if Text.HasPrefix(cfg.agentCardSource, "http://") || Text.HasPrefix(cfg.agentCardSource, "https://") then
      RemoteCard(cfg.agentCardSource)
    else FileCard(cfg.agentCardSource)
  }

  /** The I/O card resolution may do: fetch a card from a URL, read a file, check that a
      text is well-formed JSON (the error, if not), and decode a JSON card. */
  datatype CardIO = CardIO(
    fetch: string -> Result<AgentCard>,
    readFile: string -> Result<string>,
    checkJSON: string -> Option<string>,
    decode: string -> Result<AgentCard>)

  const FetchFailure := "failed to fetch an agent card: "
  const UnmarshalFailure := "failed to unmarshal an agent card: "

  /** What `json.Unmarshal` reports for well-formed input and a nil target pointer. */
  const NilTargetError := "json: Unmarshal(nil *a2a.AgentCard)"

  function ReadFailure(path: string): string {
    "failed to read agent card from " + Text.Quote(path) + ": "
  }

  /** `resolveAgentCard` with the decoding of a file's text as a parameter. */
  function ResolveWith(cfg: A2AConfig, io: CardIO, unmarshal: string -> Result<AgentCard>): Result<AgentCard> {
    match CardSourceOf(cfg)
    case Configured(card) => Ok(card)
    case RemoteCard(url) =>
      (match io.fetch(url)
       case Err(e) => Err(FetchFailure + e)
       case Ok(card) => Ok(card))
    case FileCard(path) =>
      match io.readFile(path)
      case Err(e) => Err(ReadFailure(path) + e)
      case Ok(text) =>
        match unmarshal(text)
        case Err(e) => Err(UnmarshalFailure + e)
        case Ok(card) => Ok(card)
  }

  /** `json.Unmarshal` into the nil `*a2a.AgentCard` the file branch passes: malformed
      input is reported first, and well-formed input fails on the nil target. */
  function NilTargetUnmarshal(io: CardIO): string -> Result<AgentCard> {
    text => match io.checkJSON(text)
            case Some(e) => Err(e)
            case None => Err(NilTargetError)
  }

  /** `resolveAgentCard` as written. */
  function ResolveAgentCardAsWritten(cfg: A2AConfig, io: CardIO): Result<AgentCard> {
    ResolveWith(cfg, io, NilTargetUnmarshal(io))
  }

  /** `resolveAgentCard` as evidently intended: a file's text is decoded into a card. */
  function ResolveAgentCard(cfg: A2AConfig, io: CardIO): (r: Result<AgentCard>)
    ensures cfg.agentCard.Some? ==> r == Ok(cfg.agentCard.value)
    ensures CardSourceOf(cfg).RemoteCard? ==>
              r == (if io.fetch(cfg.agentCardSource).Ok? then io.fetch(cfg.agentCardSource)
                    else Err(FetchFailure + io.fetch(cfg.agentCardSource).error))
    ensures CardSourceOf(cfg).FileCard? && io.readFile(cfg.agentCardSource).Err? ==>
              r == Err(ReadFailure(cfg.agentCardSource) + io.readFile(cfg.agentCardSource).error)
    ensures CardSourceOf(cfg).FileCard? && io.readFile(cfg.agentCardSource).Ok? ==>
              var decoded := io.decode(io.readFile(cfg.agentCardSource).value);
              r == (if decoded.Ok? then decoded else Err(UnmarshalFailure + decoded.error))
  {
    ResolveWith(cfg, io, io.decode)
  }

  /** A configured card is used without any I/O: the result does not depend on it. */
  lemma ConfiguredCardNoIO(cfg: A2AConfig, io1: CardIO, io2: CardIO)
    requires cfg.agentCard.Some?
    ensures ResolveAgentCard(cfg, io1) == ResolveAgentCard(cfg, io2) == Ok(cfg.agentCard.value)
    ensures ResolveAgentCardAsWritten(cfg, io1) == ResolveAgentCardAsWritten(cfg, io2) == Ok(cfg.agentCard.value)
  {
  }

  /** A remote source is only fetched: the file operations play no part. */
  lemma RemoteCardOnlyFetches(cfg: A2AConfig, io1: CardIO, io2: CardIO)
    requires CardSourceOf(cfg).RemoteCard? && io1.fetch == io2.fetch
    ensures ResolveAgentCard(cfg, io1) == ResolveAgentCard(cfg, io2)
    ensures ResolveAgentCardAsWritten(cfg, io1) == ResolveAgentCard(cfg, io1)
  {
  }

  /** As written, a card source that is a file never yields a card. */
  lemma FileCardNeverLoadsAsWritten(cfg: A2AConfig, io: CardIO)
    requires CardSourceOf(cfg).FileCard?
    ensures ResolveAgentCardAsWritten(cfg, io).Err?
    ensures io.readFile(cfg.agentCardSource).Ok? && io.checkJSON(io.readFile(cfg.agentCardSource).value).None? ==>
              ResolveAgentCardAsWritten(cfg, io) == Err(UnmarshalFailure + NilTargetError)
  {
  }

  /** A readable file holding a well-formed card: as written the resolution fails, as
      intended it yields the card. */
  lemma FileCardCounterexample(card: AgentCard)
    ensures var cfg := A2AConfig("remote", "", None, "card.json");
            var io := CardIO(url => Err("no network"), path => Ok("{}"), text => None, text => Ok(card));
            && ResolveAgentCardAsWritten(cfg, io) == Err(UnmarshalFailure + NilTargetError)
            && ResolveAgentCard(cfg, io) == Ok(card)
  {
    var cfg := A2AConfig("remote", "", None, "card.json");
    assert !Text.HasPrefix(cfg.agentCardSource, "http://") by { assert cfg.agentCardSource[0] != 'h'; }
    assert !Text.HasPrefix(cfg.agentCardSource, "https://") by { assert cfg.agentCardSource[0] != 'h'; }
  }

  /** As intended, a file card loads whenever the file reads and decodes. */
  lemma FileCardLoads(cfg: A2AConfig, io: CardIO)
    requires CardSourceOf(cfg).FileCard?
    requires io.readFile(cfg.agentCardSource).Ok? && io.decode(io.readFile(cfg.agentCardSource).value).Ok?
    ensures ResolveAgentCard(cfg, io) == io.decode(io.readFile(cfg.agentCardSource).value)
  {
  }

  // ---- events built by the run ----

  const ErrorKey := Events.ToADKMetaKey("error")

  /** `toErrorEvent`: an event of the agent carrying the error text as its error message
      and as its only metadata entry. */
  function ToErrorEvent(ctx: Session.InvocationContext, text: string): (e: Session.Event)
    ensures e.invocationID == ctx.invocationID && e.author == ctx.agentName && e.branch == ctx.branch
    ensures e.response.content.None? && e.response.errorCode == "" && e.response.errorMessage == text
    ensures e.response.customMetadata.Some? && e.response.customMetadata.value.Keys == {ErrorKey}
    ensures e.response.customMetadata.value[ErrorKey] == Str(text)
  {
    var event := Events.NewRemoteAgentEvent(ctx);
    event.(response := event.response.(errorMessage := text, customMetadata := Some(map[ErrorKey := Str(text)])))
  }

  const RequestKey := Events.ToADKMetaKey("request")
  const ResponseKey := Events.ToADKMetaKey("response")
  const RequestErrorKey := Events.ToADKMetaKey("request_codec_error")
  const ResponseErrorKey := Events.ToADKMetaKey("response_codec_error")

  lemma MetadataKeysDistinct()
    ensures RequestKey != ResponseKey && RequestErrorKey != ResponseErrorKey
    ensures RequestKey != ResponseErrorKey && RequestErrorKey != ResponseKey
    ensures ErrorKey !in {RequestKey, ResponseKey, RequestErrorKey, ResponseErrorKey}
  {
    assert RequestKey[6] != ResponseKey[6];
    assert RequestErrorKey[6] != ResponseErrorKey[6];
    assert RequestKey[6] != ResponseErrorKey[6];
    assert RequestErrorKey[6] != ResponseKey[6];
    assert ErrorKey[4] != RequestKey[4];
    assert ErrorKey[4] != RequestErrorKey[4];
    assert ErrorKey[4] != ResponseKey[4];
    assert ErrorKey[4] != ResponseErrorKey[4];
  }

  /** One pass of `updateCustomMetadata`'s loop: the payload under `key`, or the codec
      error under `errorKey`. */
  function SetPayload(m: Meta, key: string, errorKey: string, payload: Result<Fields>): Meta {
    if payload.Ok? then m[key := Obj(payload.value)] else m[errorKey := Str(payload.error)]
  }

  /** The metadata map of an event, an absent one read as empty. */
  function MetaOf(e: Session.Event): Meta {
    if e.response.customMetadata.Some? then e.response.customMetadata.value else map[]
  }

  /** `updateCustomMetadata`. `request` is a nil-able pointer held in an untyped map
      entry, so its entry is never skipped; the payload of both entries is the map
      structure of the request (a nil request encodes as JSON null). */
  function UpdateCustomMetadata(e: Session.Event, request: Option<Value>, response: Option<Wire.Event>): Session.Event {
    if request.None? && response.None? then e
    else
      var payload := ToMapStructure(if request.Some? then request.value else Null);
      var m := SetPayload(MetaOf(e), RequestKey, RequestErrorKey, payload);
      var m := if response.Some? then SetPayload(m, ResponseKey, ResponseErrorKey, payload) else m;
      e.(response := e.response.(customMetadata := Some(m)))
  }

  /** Nothing to record leaves the event as it was; otherwise only the metadata changes,
      every earlier entry other than the four request/response keys stays, the request
      entry is written, and the response entry is written exactly when there is a
      response, with the request's payload. */
  lemma UpdateCustomMetadataMeaning(e: Session.Event, request: Option<Value>, response: Option<Wire.Event>)
    ensures request.None? && response.None? ==> UpdateCustomMetadata(e, request, response) == e
    ensures request.Some? || response.Some? ==>
              var r := UpdateCustomMetadata(e, request, response);
              var m := r.response.customMetadata;
              var payload := ToMapStructure(if request.Some? then request.value else Null);
              && r == e.(response := e.response.(customMetadata := m))
              && m.Some?
              && (forall k | k in MetaOf(e) && k !in {RequestKey, ResponseKey, RequestErrorKey, ResponseErrorKey} ::
                    k in m.value && m.value[k] == MetaOf(e)[k])
              && (payload.Ok? ==> RequestKey in m.value && m.value[RequestKey] == Obj(payload.value))
              && (payload.Err? ==> RequestErrorKey in m.value && m.value[RequestErrorKey] == Str(payload.error))
              && (response.Some? && payload.Ok? ==> ResponseKey in m.value && m.value[ResponseKey] == Obj(payload.value))
              && (response.Some? && payload.Err? ==> ResponseErrorKey in m.value && m.value[ResponseErrorKey] == Str(payload.error))
              && (response.None? ==> forall k | k in {ResponseKey, ResponseErrorKey} ::
                                       (k in m.value <==> k in MetaOf(e)) && (k in m.value ==> m.value[k] == MetaOf(e)[k]))
  {
    MetadataKeysDistinct();
  }

  /** Go visits the two entries in either order; both orders give the same map. */
  lemma UpdateOrderIrrelevant(m: Meta, payload: Result<Fields>)
    ensures SetPayload(SetPayload(m, RequestKey, RequestErrorKey, payload), ResponseKey, ResponseErrorKey, payload) ==
            SetPayload(SetPayload(m, ResponseKey, ResponseErrorKey, payload), RequestKey, RequestErrorKey, payload)
  {
    MetadataKeysDistinct();
  }

  // ---- the outgoing message ----

  /** The message that continues a call: the user's response event encoded for the wire,
      in the call's task and context. */
  function ContinuationMessage(call: RemoteHistory.UserFunctionCall): (r: Result<Wire.Message>)
    requires call.event.response.content.Some? && call.event.author == "user"
    ensures var encoded := Parts.EncodeParts(call.event.response.content.value.parts, call.event.longRunningToolIDs);
            && (r.Ok? <==> encoded.Ok?)
            && (r.Ok? ==> r.value == Wire.Message(Wire.RoleUser, encoded.value, call.taskID, call.contextID))
  {
    match Events.EventToMessage(Some(call.event))
    case Err(e) => Err(e)
    case Ok(m) => Ok(m.value.(taskID := call.taskID, contextID := call.contextID))
  }

  /** `newMessage`: when the session's last event answers a call, that event's parts in
      the call's task and context; otherwise a user message of what the peer has not seen,
      in the context the peer last answered in. Only the first can fail. */
  function NewMessageOf(ctx: Session.InvocationContext, events: seq<Session.Event>): (r: Result<Wire.Message>)
    ensures r.Ok? ==> r.value.role == Wire.RoleUser
    ensures RemoteHistory.UserFunctionCallAt(events, |events| - 1).None? ==>
              r == Ok(Wire.Message(Wire.RoleUser, RemoteHistory.MissingParts(ctx, events).0, "",
                                   RemoteHistory.MissingParts(ctx, events).1))
    ensures RemoteHistory.UserFunctionCallAt(events, |events| - 1).Some? ==>
              r == ContinuationMessage(RemoteHistory.UserFunctionCallAt(events, |events| - 1).value)
  {
    match RemoteHistory.UserFunctionCallAt(events, |events| - 1)
    case Some(call) => ContinuationMessage(call)
    case None =>
      var (parts, contextID) := RemoteHistory.MissingParts(ctx, events);
      Ok(Wire.Message(Wire.RoleUser, parts, "", contextID))
  }

  /** `newMessage`, calling the history scans. */
  method NewMessage(ctx: Session.InvocationContext, events: seq<Session.Event>) returns (r: Result<Wire.Message>)
    ensures r == NewMessageOf(ctx, events)
  {
    var call := RemoteHistory.GetUserFunctionCallAt(events, |events| - 1);
    if call.Some? {
      return ContinuationMessage(call.value);
    }
    var parts, contextID := RemoteHistory.ToMissingRemoteSessionParts(ctx, events);
    NewMessageOfMissing(ctx, events, parts, contextID);
    return Ok(Wire.Message(Wire.RoleUser, parts, "", contextID));
  }

  lemma NewMessageOfMissing(ctx: Session.InvocationContext, events: seq<Session.Event>, parts: seq<Wire.Part>, contextID: string)
    requires RemoteHistory.UserFunctionCallAt(events, |events| - 1).None?
    requires (parts, contextID) == RemoteHistory.MissingParts(ctx, events)
    ensures NewMessageOf(ctx, events) == Ok(Wire.Message(Wire.RoleUser, parts, "", contextID))
  {
  }

  // ---- the streaming loop ----

  /** One item of `SendStreamingMessage`'s sequence. */
  datatype StreamItem = StreamEvent(event: Wire.Event) | StreamError(message: string)

  /** What becomes of a wire event: its translation fails, it has none, or it has one. */
  datatype Translated = Unconvertible(message: string) | Skipped | Translation(event: Session.Event)

  const ConvertFailure := "failed to convert a2aEvent: "

  /** `ToSessionEvent` in the run's context, classified. */
  function Translate(ctx: Session.InvocationContext, ev: Wire.Event): (t: Translated)
    ensures t.Unconvertible? <==> Events.SessionEventOf(Some(ctx), ev).Err?
    ensures t.Unconvertible? ==> t.message == ConvertFailure + Events.SessionEventOf(Some(ctx), ev).error
    ensures t.Translation? <==> Events.SessionEventOf(Some(ctx), ev).Ok? && Events.SessionEventOf(Some(ctx), ev).value.Some?
    ensures t.Translation? ==> t.event == Events.SessionEventOf(Some(ctx), ev).value.value
  {
    match Events.SessionEventOf(Some(ctx), ev)
    case Err(e) => Unconvertible(ConvertFailure + e)
    case Ok(None) => Skipped
    case Ok(Some(event)) => Translation(event)
  }

  /** `Translate`, calling the translator. */
  method TranslateEvent(ctx: Session.InvocationContext, ev: Wire.Event) returns (t: Translated)
    ensures t == Translate(ctx, ev)
  {
    var r := Events.ToSessionEvent(Some(ctx), ev);
    if r.Err? {
      return Unconvertible(ConvertFailure + r.error);
    }
    if r.value.None? {
      return Skipped;
    }
    return Translation(r.value.value);
  }

  /** The error event a failure ends the stream with, carrying the request. */
  function FailureEvent(ctx: Session.InvocationContext, request: Value, text: string): Session.Event {
    UpdateCustomMetadata(ToErrorEvent(ctx, text), Some(request), None)
  }

  /** A failure event is the error event of the text, with the request (or its codec
      error) as the only other metadata entry. */
  lemma FailureEventMeaning(ctx: Session.InvocationContext, request: Value, text: string)
    ensures var e := FailureEvent(ctx, request, text);
            var payload := ToMapStructure(request);
            && e.author == ctx.agentName && e.invocationID == ctx.invocationID
            && e.response.content.None? && e.response.errorMessage == text
            && e.response.customMetadata.Some?
            && ErrorKey in e.response.customMetadata.value && e.response.customMetadata.value[ErrorKey] == Str(text)
            && (payload.Ok? ==> e.response.customMetadata.value == map[ErrorKey := Str(text), RequestKey := Obj(payload.value)])
            && (payload.Err? ==> e.response.customMetadata.value == map[ErrorKey := Str(text), RequestErrorKey := Str(payload.error)])
  {
    MetadataKeysDistinct();
  }

  /** How the streaming loop treats its items: how a wire event is translated, the event
      a failure yields, and how a translated event is annotated before it is yielded. */
  datatype StreamHooks = StreamHooks(
    translate: Wire.Event -> Translated,
    failed: string -> Session.Event,
    yielded: (Session.Event, Wire.Event) -> Session.Event)

  /** The hooks of a run in context `ctx` sending `request`. */
  function RunHooks(ctx: Session.InvocationContext, request: Value): StreamHooks {
    StreamHooks(ev => Translate(ctx, ev),
                text => FailureEvent(ctx, request, text),
                (e, ev) => UpdateCustomMetadata(e, Some(request), Some(ev)))
  }

  /** What the streaming loop yields for `items` when the consumer accepts `accepts`
      events and refuses the next: a stream error or a failed translation yields its
      error event and ends the run, an event without a translation is skipped, and every
      translated event is yielded, annotated. */
  function StreamEvents(h: StreamHooks, items: seq<StreamItem>, accepts: nat): seq<Session.Event>
    decreases |items|
  {
    if items == [] then []
    else match items[0]
      case StreamError(e) => [h.failed(e)]
      case StreamEvent(ev) =>
        match h.translate(ev)
        case Unconvertible(e) => [h.failed(e)]
        case Skipped => StreamEvents(h, items[1..], accepts)
        case Translation(event) =>
          var out := h.yielded(event, ev);
          if accepts == 0 then [out] else [out] + StreamEvents(h, items[1..], accepts - 1)
  }

  /** An item that is yielded. */
  predicate Yields(h: StreamHooks, item: StreamItem) {
    item.StreamEvent? && h.translate(item.event).Translation?
  }

  /** An item that ends the stream with an error, and its error text. */
  function FailureOf(h: StreamHooks, item: StreamItem): Option<string> {
    match item
    case StreamError(e) => Some(e)
    case StreamEvent(ev) => if h.translate(ev).Unconvertible? then Some(h.translate(ev).message) else None
  }

  /** The event yielded for an item that is yielded. */
  function YieldedFor(h: StreamHooks, item: StreamItem): Session.Event
    requires Yields(h, item)
  {
    h.yielded(h.translate(item.event).event, item.event)
  }

  /** The consumer's refusal ends the run: at most one event more than it accepts, and
      never more events than items. */
  lemma {:induction false} StreamStopsOnRefusal(h: StreamHooks, items: seq<StreamItem>, accepts: nat)
    ensures |StreamEvents(h, items, accepts)| <= accepts + 1
    ensures |StreamEvents(h, items, accepts)| <= |items|
    decreases |items|
  {
    if items != [] && items[0].StreamEvent? {
      match h.translate(items[0].event)
      case Unconvertible(_) =>
      case Skipped => StreamStopsOnRefusal(h, items[1..], accepts);
      case Translation(_) =>
        if accepts > 0 {
          StreamStopsOnRefusal(h, items[1..], accepts - 1);
        }
    }
  }

  /** Events arrive in order: when every item is yielded and the consumer accepts all but
      possibly the last, the run yields one event per item, in item order. */
  lemma {:induction false} StreamInOrder(h: StreamHooks, items: seq<StreamItem>, accepts: nat)
    requires forall i | 0 <= i < |items| :: Yields(h, items[i])
    requires |items| <= accepts + 1
    ensures |StreamEvents(h, items, accepts)| == |items|
    ensures forall i | 0 <= i < |items| :: StreamEvents(h, items, accepts)[i] == YieldedFor(h, items[i])
    decreases |items|
  {
    if items != [] {
      assert Yields(h, items[0]);
      if |items| > 1 {
        assert accepts > 0;
        assert forall i | 0 <= i < |items| - 1 :: items[1..][i] == items[i + 1];
        StreamInOrder(h, items[1..], accepts - 1);
        var rest := StreamEvents(h, items[1..], accepts - 1);
        assert StreamEvents(h, items, accepts) == [YieldedFor(h, items[0])] + rest;
      }
    }
  }

  /** A failing item after `k` yielded ones ends the run with its error event; nothing
      after it is looked at. */
  lemma {:induction false} StreamFailureEnds(h: StreamHooks, items: seq<StreamItem>, accepts: nat, k: nat)
    requires k < |items| && k <= accepts
    requires forall i | 0 <= i < k :: Yields(h, items[i])
    requires FailureOf(h, items[k]).Some?
    ensures |StreamEvents(h, items, accepts)| == k + 1
    ensures StreamEvents(h, items, accepts)[k] == h.failed(FailureOf(h, items[k]).value)
    decreases k
  {
    if k > 0 {
      assert Yields(h, items[0]);
      assert forall i | 0 <= i < k - 1 :: items[1..][i] == items[i + 1];
      StreamFailureEnds(h, items[1..], accepts - 1, k - 1);
    }
  }

  /** An event without a translation is skipped, wherever it occurs. */
  lemma {:induction false} StreamSkipsUntranslated(h: StreamHooks, xs: seq<StreamItem>, item: StreamItem,
                                                   ys: seq<StreamItem>, accepts: nat)
    requires item.StreamEvent? && h.translate(item.event).Skipped?
    ensures StreamEvents(h, xs + [item] + ys, accepts) == StreamEvents(h, xs + ys, accepts)
    decreases |xs|
  {
    if xs == [] {
      assert (xs + [item] + ys)[1..] == xs + ys;
    } else {
      assert (xs + [item] + ys)[0] == (xs + ys)[0] == xs[0];
      assert (xs + [item] + ys)[1..] == xs[1..] + [item] + ys;
      assert (xs + ys)[1..] == xs[1..] + ys;
      if Yields(h, xs[0]) && accepts > 0 {
        StreamSkipsUntranslated(h, xs[1..], item, ys, accepts - 1);
      } else {
        StreamSkipsUntranslated(h, xs[1..], item, ys, accepts);
      }
    }
  }

  /** One pass of the loop: the events of the rest of the stream, from item `i` on. */
  lemma StreamStep(h: StreamHooks, items: seq<StreamItem>, i: nat, budget: nat)
    requires i < |items|
    ensures items[i].StreamError? ==> StreamEvents(h, items[i..], budget) == [h.failed(items[i].message)]
    ensures items[i].StreamEvent? && h.translate(items[i].event).Unconvertible? ==>
              StreamEvents(h, items[i..], budget) == [h.failed(h.translate(items[i].event).message)]
    ensures items[i].StreamEvent? && h.translate(items[i].event).Skipped? ==>
              StreamEvents(h, items[i..], budget) == StreamEvents(h, items[i + 1..], budget)
    ensures items[i].StreamEvent? && h.translate(items[i].event).Translation? ==>
              var out := h.yielded(h.translate(items[i].event).event, items[i].event);
              StreamEvents(h, items[i..], budget) ==
              if budget == 0 then [out] else [out] + StreamEvents(h, items[i + 1..], budget - 1)
  {
    assert items[i..][0] == items[i] && items[i..][1..] == items[i + 1..];
  }

  // ---- the run ----

  /** The I/O of one run: card resolution, client creation (its error, if any), the JSON
      form of the send request built around a message, the peer's stream, and how many
      events the consumer accepts before it refuses one. */
  datatype RunIO = RunIO(
    card: CardIO,
    createClient: AgentCard -> Outcome,
    requestJSON: Wire.Message -> Value,
    stream: seq<StreamItem>,
    accepts: nat)

  const CardFailure := "agent card resolution failed: "
  const ClientFailure := "client creation failed: "
  const MessageFailure := "message creation failed: "

  /** What a run yields, in order, once the card resolution has given `card`. */
  function RunEventsWith(ctx: Session.InvocationContext, events: seq<Session.Event>, io: RunIO,
                         card: Result<AgentCard>): seq<Session.Event> {
    match card
    case Err(e) => [ToErrorEvent(ctx, CardFailure + e)]
    case Ok(card) =>
      match io.createClient(card)
      case Fail(e) => [ToErrorEvent(ctx, ClientFailure + e)]
      case Pass =>
        match NewMessageOf(ctx, events)
        case Err(e) => [ToErrorEvent(ctx, MessageFailure + e)]
        case Ok(msg) =>
          if |msg.parts| == 0 then [Events.NewRemoteAgentEvent(ctx)]
          else StreamEvents(RunHooks(ctx, io.requestJSON(msg)), io.stream, io.accepts)
  }

  /** What `run` yields as written: the card is resolved by `ResolveAgentCardAsWritten`. */
  function RunEvents(ctx: Session.InvocationContext, cfg: A2AConfig, events: seq<Session.Event>, io: RunIO): seq<Session.Event> {
    RunEventsWith(ctx, events, io, ResolveAgentCardAsWritten(cfg, io.card))
  }

  /** What `run` would yield with the file branch corrected (`ResolveAgentCard`). */
  function CorrectedRunEvents(ctx: Session.InvocationContext, cfg: A2AConfig, events: seq<Session.Event>, io: RunIO): seq<Session.Event> {
    RunEventsWith(ctx, events, io, ResolveAgentCard(cfg, io.card))
  }

  /** Each failure before the send yields exactly one error event, naming its stage, and
      ends the run; a message without parts yields one empty event and nothing is sent. */
  lemma RunWithOutcomes(ctx: Session.InvocationContext, events: seq<Session.Event>, io: RunIO, card: Result<AgentCard>)
    ensures card.Err? ==> RunEventsWith(ctx, events, io, card) == [ToErrorEvent(ctx, CardFailure + card.error)]
    ensures card.Ok? && io.createClient(card.value).Fail? ==>
              RunEventsWith(ctx, events, io, card) == [ToErrorEvent(ctx, ClientFailure + io.createClient(card.value).error)]
    ensures card.Ok? && io.createClient(card.value).Pass? && NewMessageOf(ctx, events).Err? ==>
              RunEventsWith(ctx, events, io, card) == [ToErrorEvent(ctx, MessageFailure + NewMessageOf(ctx, events).error)]
    ensures card.Ok? && io.createClient(card.value).Pass? && NewMessageOf(ctx, events).Ok?
            && |NewMessageOf(ctx, events).value.parts| == 0 ==>
              RunEventsWith(ctx, events, io, card) == [Events.NewRemoteAgentEvent(ctx)]
              && RunEventsWith(ctx, events, io, card)[0].response.content.None?
    ensures card.Ok? && io.createClient(card.value).Pass? && NewMessageOf(ctx, events).Ok?
            && |NewMessageOf(ctx, events).value.parts| > 0 ==>
              RunEventsWith(ctx, events, io, card)
              == StreamEvents(RunHooks(ctx, io.requestJSON(NewMessageOf(ctx, events).value)), io.stream, io.accepts)
  {
  }

  /** The run as written: every failure before the send yields one error event naming
      its stage; a file card source always ends the run with the card-resolution error,
      and a readable, well-formed file with the nil-target error. */
  lemma RunSetupOutcomes(ctx: Session.InvocationContext, cfg: A2AConfig, events: seq<Session.Event>, io: RunIO)
    ensures ResolveAgentCardAsWritten(cfg, io.card).Err? ==>
              RunEvents(ctx, cfg, events, io) == [ToErrorEvent(ctx, CardFailure + ResolveAgentCardAsWritten(cfg, io.card).error)]
    ensures ResolveAgentCardAsWritten(cfg, io.card).Ok? && io.createClient(ResolveAgentCardAsWritten(cfg, io.card).value).Fail? ==>
              RunEvents(ctx, cfg, events, io) ==
              [ToErrorEvent(ctx, ClientFailure + io.createClient(ResolveAgentCardAsWritten(cfg, io.card).value).error)]
    ensures ResolveAgentCardAsWritten(cfg, io.card).Ok? && io.createClient(ResolveAgentCardAsWritten(cfg, io.card).value).Pass? ==>
              && (NewMessageOf(ctx, events).Err? ==>
                    RunEvents(ctx, cfg, events, io) == [ToErrorEvent(ctx, MessageFailure + NewMessageOf(ctx, events).error)])
              && (NewMessageOf(ctx, events).Ok? && |NewMessageOf(ctx, events).value.parts| == 0 ==>
                    RunEvents(ctx, cfg, events, io) == [Events.NewRemoteAgentEvent(ctx)] &&
                    RunEvents(ctx, cfg, events, io)[0].response.content.None?)
    ensures CardSourceOf(cfg).FileCard? ==>
              |RunEvents(ctx, cfg, events, io)| == 1
              && RunEvents(ctx, cfg, events, io)[0] == ToErrorEvent(ctx, CardFailure + ResolveAgentCardAsWritten(cfg, io.card).error)
    ensures CardSourceOf(cfg).FileCard? && io.card.readFile(cfg.agentCardSource).Ok?
            && io.card.checkJSON(io.card.readFile(cfg.agentCardSource).value).None? ==>
              RunEvents(ctx, cfg, events, io) == [ToErrorEvent(ctx, CardFailure + (UnmarshalFailure + NilTargetError))]
  {
    RunWithOutcomes(ctx, events, io, ResolveAgentCardAsWritten(cfg, io.card));
    if CardSourceOf(cfg).FileCard? {
      FileCardNeverLoadsAsWritten(cfg, io.card);
    }
  }

  /** Without a file card source the corrected run and the run as written agree; with
      one, a readable, decodable file makes the corrected run go on past the card. */
  lemma CorrectedRunAgrees(ctx: Session.InvocationContext, cfg: A2AConfig, events: seq<Session.Event>, io: RunIO)
    ensures !CardSourceOf(cfg).FileCard? ==> CorrectedRunEvents(ctx, cfg, events, io) == RunEvents(ctx, cfg, events, io)
    ensures CardSourceOf(cfg).FileCard? && io.card.readFile(cfg.agentCardSource).Ok?
            && io.card.decode(io.card.readFile(cfg.agentCardSource).value).Ok? ==>
              CorrectedRunEvents(ctx, cfg, events, io)
              == RunEventsWith(ctx, events, io, io.card.decode(io.card.readFile(cfg.agentCardSource).value))
  {
    if CardSourceOf(cfg).RemoteCard? {
      RemoteCardOnlyFetches(cfg, io.card, io.card);
    }
    if CardSourceOf(cfg).FileCard? && io.card.readFile(cfg.agentCardSource).Ok?
       && io.card.decode(io.card.readFile(cfg.agentCardSource).value).Ok? {
      FileCardLoads(cfg, io.card);
    }
  }

  /** The remote agent's state: the card of its last successful resolution. */
  class A2AAgent {
    var resolvedCard: Option<AgentCard>

    constructor (card: Option<AgentCard>)
      ensures resolvedCard == card
    {
      resolvedCard := card;
    }

    /** `run` as written: the events yielded, in order. The card is resolved on every
        run, by the file branch as written; the one stored is never read back. */
    method Run(ctx: Session.InvocationContext, cfg: A2AConfig, events: seq<Session.Event>, io: RunIO)
      returns (out: seq<Session.Event>)
      modifies this
      ensures out == RunEvents(ctx, cfg, events, io)
      ensures resolvedCard == if ResolveAgentCardAsWritten(cfg, io.card).Ok? then Some(ResolveAgentCardAsWritten(cfg, io.card).value)
                              else old(resolvedCard)
    {
      var card := ResolveAgentCardAsWritten(cfg, io.card);
      if card.Err? {
        return [ToErrorEvent(ctx, CardFailure + card.error)];
      }
      resolvedCard := Some(card.value);
      var client := io.createClient(card.value);
      if client.Fail? {
        return [ToErrorEvent(ctx, ClientFailure + client.error)];
      }
      var msg := NewMessage(ctx, events);
      if msg.Err? {
        return [ToErrorEvent(ctx, MessageFailure + msg.error)];
      }
      if |msg.value.parts| == 0 {
        return [Events.NewRemoteAgentEvent(ctx)];
      }
      var request := io.requestJSON(msg.value);
      out := StreamLoop(ctx, request, RunHooks(ctx, request), io.stream, io.accepts);
    }
  }

  lemma ConsAssoc<T>(a: seq<T>, x: T, b: seq<T>)
    ensures a + ([x] + b) == (a + [x]) + b
  {
  }

  /** The body of the streaming loop for item `i`: what it yields, and whether the run
      ends there (the consumer aside), against the events of the rest of the stream. */
  method NextItem(ctx: Session.InvocationContext, request: Value, ghost h: StreamHooks,
                  stream: seq<StreamItem>, i: nat, ghost budget: nat)
    returns (yielded: Option<Session.Event>, ends: bool)
    requires h == RunHooks(ctx, request) && i < |stream|
    ensures ends ==> yielded.Some? && StreamEvents(h, stream[i..], budget) == [yielded.value]
    ensures !ends && yielded.None? ==> StreamEvents(h, stream[i..], budget) == StreamEvents(h, stream[i + 1..], budget)
    ensures !ends && yielded.Some? ==>
              StreamEvents(h, stream[i..], budget) ==
              if budget == 0 then [yielded.value] else [yielded.value] + StreamEvents(h, stream[i + 1..], budget - 1)
  {
    StreamStep(h, stream, i, budget);
    match stream[i] {
      case StreamError(e) =>
        return Some(FailureEvent(ctx, request, e)), true;
      case StreamEvent(ev) =>
        var t := TranslateEvent(ctx, ev);
        assert t == h.translate(ev);
        match t {
          case Unconvertible(e) => return Some(FailureEvent(ctx, request, e)), true;
          case Skipped => return None, false;
          case Translation(event) => return Some(UpdateCustomMetadata(event, Some(request), Some(ev))), false;
        }
    }
  }

  /** The `for … range client.SendStreamingMessage` loop, with the run's hooks. */
  method StreamLoop(ctx: Session.InvocationContext, request: Value, ghost h: StreamHooks,
                    stream: seq<StreamItem>, accepts: nat)
    returns (out: seq<Session.Event>)
    requires h == RunHooks(ctx, request)
    ensures out == StreamEvents(h, stream, accepts)
  {
    out := [];
    var budget := accepts;
    var i := 0;
    while i < |stream|
      invariant 0 <= i <= |stream|
      invariant out + StreamEvents(h, stream[i..], budget) == StreamEvents(h, stream, accepts)
    {
      var yielded, ends := NextItem(ctx, request, h, stream, i, budget);
      if ends {
        out := out + [yielded.value];
        return;
      }
      if yielded.Some? {
        if budget == 0 {
          out := out + [yielded.value];
          return;
        }
        ConsAssoc(out, yielded.value, StreamEvents(h, stream[i + 1..], budget - 1));
        out := out + [yielded.value];
        budget := budget - 1;
      }
      i := i + 1;
    }
  }

  /** `New`: a configuration without a card or a card source is refused. */
  method New(cfg: A2AConfig) returns (r: Result<A2AAgent>)
    ensures r.Err? <==> cfg.agentCard.None? && cfg.agentCardSource == ""
    ensures r.Err? ==> r.error == MissingCardError
    ensures r.Ok? ==> fresh(r.value) && r.value.resolvedCard == cfg.agentCard
  {
    if cfg.agentCard.None? && cfg.agentCardSource == "" {
      return Err(MissingCardError);
    }
    var a := new A2AAgent(cfg.agentCard);
    return Ok(a);
  }
}
