# A verified model of the adk-go A2A bridge

This project models, in Dafny, the part of the Agent Development Kit for Go that bridges the
local agent runtime to the Agent2Agent (A2A) protocol. It also models the pure logic of the
REST server. It proves what that code promises. The A2A data objects (Task, TaskState, Part,
Artifact, Message and the streaming events) are those of section 6 of the A2A specification.

The model has these pieces, one Dafny module per Go file, plus shared data modules:

- **Part codec** (`Parts`, `PartsLaws`, with `Base64`, `GenAI`, `Values`, `Wire`). It translates
  `genai.Part`s to wire parts and back, index by index, with a fixed branch precedence. The
  thought flag and the long-running flag travel in metadata. Opaque data falls back to text.
  File bytes use the standard base64 encoding of section 4 of RFC 4648, which is implemented
  and proved here.
- **Inbound translator and correlation metadata** (`Events`, `ServerMetadata`, `LegacyMetadata`).
  One wire event becomes zero or one session event. The task and context IDs travel under
  `a2a:`-prefixed keys, and the server's own metadata under `adk_` keys.
- **Server-side event processor and executors** (`Processor`, `ProcessorLaws`, `ServerExecutor`,
  `ServerExecutorLaws`, `LegacyExecutor`, with `Runtime`). The processor is a class with the
  fields `responseID` and `terminalEvents`. The executors write an ordered sequence to the
  event queue: Submitted, Working, artifact chunks, a last chunk, and one terminal status.
- **Client-side history diff and driver** (`RemoteHistory`, `RemoteAgent`). A backward scan
  over the session's event log finds what the remote peer has not seen. It also finds a
  pending function-response continuation. A run turns each failure class into exactly one
  error event, and streams the peer's events back in order.
- **Agent-card skill builder** (`AgentCard`). It builds the skills and descriptions, including
  the case-insensitive whole-word pronoun rewriter.
- **REST-side logic** (`AgentGraph`, `AgentLoader`, `RestEvent`, `RestSession`). These cover:
  - the graph drawing, with its visited set and highlight rules;
  - the agent loaders, with duplicate-name detection;
  - the event and session records, with their mappings and validation.

Code that loops or updates state in place is modelled as methods. These include the
list translations, the event processor, the executors, the history scans, the streaming
loop, the description builders, the graph generator, the loaders and `FromSession`. Each
method is proved against a specification function, and the properties are proved about
that function. Go's `(value, error)` results become `Result` and its nil pointers become
`Option`.

### Where the code and its comments disagree

The model follows the code in each of these cases.

- `server/adka2a/processor.go:78` stores the InputRequired event under the Failed key. A later
  input request therefore replaces an earlier error, and later errors no longer register
  (`ProcessorLaws.InputRequiredOverridesEarlierError`).
- `agent/remoteagent/utils.go:48-58` accepts the matching function call from an event of any
  author, although the comment speaks of a call the peer made
  (`RemoteHistory.UserFunctionCallAtMeaning`).
- `agent/remoteagent/a2a_agent.go:195` builds the payload from the request for both the
  `a2a:request` and the `a2a:response` keys (`RemoteAgent.UpdateCustomMetadataMeaning`).
- `agent/remoteagent/a2a_agent.go:79` stores the resolved card. `resolveAgentCard` never
  reads it, so nothing is cached: every run resolves the card again (`RemoteAgent.A2AAgent.Run`).
  The run is modelled as written, so with a file card source it always ends in the
  card-resolution error (`RemoteAgent.RunSetupOutcomes`); the run with the corrected resolver
  is `RemoteAgent.CorrectedRunEvents` (`RemoteAgent.CorrectedRunAgrees`).
- `server/adka2a/executor.go:43-44` says every chunk is written with `Append=true`. The first
  chunk of the response artifact comes from `a2a.NewArtifactEvent` (`processor.go:88`), which
  does not set that flag; only the later chunks and the last chunk, from
  `a2a.NewArtifactUpdateEvent`, are appended (`ServerExecutorLaws.RunPlanAppend`).
- `server/restapi/services/agentgraphgenerator.go:202` draws a workflow agent's sub-agents into
  a fresh cluster graph object, and only the root graph is rendered. Two things drawn there
  never reach the output: the tool edges of agents inside a cluster, and the cluster and
  links of a nested workflow (`AgentGraph.WorkflowRootEdges`).

## Model

| member | source | states |
|---|---|---|
| Parts.A2AFilePart | adka2a/parts.go:65-101 | a file reference wins over inline bytes; the result is a file part; it fails exactly when neither is set or the video metadata of inline bytes cannot be marshalled |
| Parts.A2ADataPart | adka2a/parts.go:103-152 | always a data part; it fails exactly when the record chosen by the precedence (execution result, response, code, call) cannot be marshalled |
| Parts.A2APart | adka2a/parts.go:42-60 | non-empty text becomes a text part with that text; otherwise file content goes to the file converter, and anything else to the data converter |
| Parts.ToA2AParts | adka2a/parts.go:39-63 | the loop's outcome is the list-level encoding `EncodeParts` |
| Parts.GenAIFilePart | adka2a/parts.go:196-213 | fails exactly on a file with no content or on bytes that are not standard base64 |
| Parts.GenAITextPart | adka2a/parts.go:263-269 | succeeds exactly when the data marshals, giving a text part holding the data's JSON |
| Parts.GenAIDataPart | adka2a/parts.go:215-261 | unmarshallable data fails; no metadata, no type key or an unknown type gives the JSON text part |
| Parts.GenAIPart | adka2a/parts.go:164-191 | an unknown wire kind fails; text keeps its text and takes the thought flag from metadata; file and data parts go to their converters |
| Parts.ToGenAIParts | adka2a/parts.go:162-194 | the loop's outcome is the list-level decoding `DecodeParts` |
| Parts.GenAIContent | adka2a/parts.go:154-160 | succeeds exactly when the parts decode; the content then has role user and the decoded parts |
| Parts.ToGenAIContent | adka2a/parts.go:154-160 | the method's outcome is `GenAIContent` |
| PartsLaws.EncodePartsAligned | adka2a/parts.go:39-63 | encoding succeeds iff every part encodes; output i is the encoding of input i; a failure is the first failing part's error |
| PartsLaws.DecodePartsAligned | adka2a/parts.go:162-194 | decoding succeeds iff every part decodes; output i is the decoding of input i; a failure is the first failing part's error |
| PartsLaws.TextWins | adka2a/parts.go:42-47 | with non-empty text, every field other than text and thought is ignored |
| PartsLaws.FileWins | adka2a/parts.go:48-80 | without text, file content wins over data, and a file reference wins over inline bytes |
| PartsLaws.DataPrecedence | adka2a/parts.go:104-149 | among data: execution result, then function response, then executable code, then function call |
| PartsLaws.ThoughtFlag | adka2a/parts.go:168-172 | a text part carries `adk_thought: true` exactly when the part is a thought, and decoding restores the flag (also lines 44-46) |
| PartsLaws.PartKeysDistinct | adka2a/parts.go:27-30 | the type, thought and long-running keys are pairwise distinct |
| PartsLaws.LongRunningFlag | adka2a/parts.go:137-149 | a function call's data part is tagged `function_call` and its long-running flag equals membership of the call ID in the long-running IDs |
| PartsLaws.TextRoundTrip | adka2a/parts.go:166-173 | decode(encode(text part)) is the same text part, thought flag included (also lines 42-47) |
| PartsLaws.FileURIRoundTrip | adka2a/parts.go:70-80 | a file reference encodes to a URI file part and decodes back to itself (also lines 206-208) |
| PartsLaws.FileBytesRoundTrip | adka2a/parts.go:82-90 | inline bytes encode to base64 and decode back to the same blob (also lines 198-204) |
| PartsLaws.VideoMetadataDropped | adka2a/parts.go:196-204 | video metadata is written under `video_metadata` and not read back (also lines 92-98) |
| PartsLaws.FunctionCallPartRoundTrip | adka2a/parts.go:137-149 | a function call part decodes back to itself (also lines 237-242) |
| PartsLaws.FunctionResponsePartRoundTrip | adka2a/parts.go:115-124 | a function response part decodes back to itself (also lines 251-256) |
| PartsLaws.ExecutableCodePartRoundTrip | adka2a/parts.go:126-135 | an executable code part decodes back to itself (also lines 244-249) |
| PartsLaws.CodeExecutionResultPartRoundTrip | adka2a/parts.go:104-113 | a code execution result part decodes back to itself (also lines 230-235) |
| PartsLaws.PartRoundTrip | adka2a/parts.go:39-269 | every part holding exactly one kind of content decodes back to itself |
| PartsLaws.PartsRoundTrip | adka2a/parts.go:162-194 | `toGenAIParts(toA2AParts(ps)) == ps` for a list of such parts (also lines 39-63) |
| PartsLaws.OpaqueDataBecomesText | adka2a/parts.go:216-269 | untyped or unknown-typed data decodes to its JSON text, which re-encodes to a text part with that text and no metadata |
| PartsLaws.TypedDataErrors | adka2a/parts.go:224-242 | data that cannot be marshalled fails, and so does a call whose `args` is a string |
| PartsLaws.EmptyPartFallback | adka2a/parts.go:151 | a part with no recognised field becomes an empty data part without metadata, which decodes to the text `{}` |
| PartsLaws.DecodeFailurePropagates | adka2a/parts.go:155-190 | one failing wire part fails the whole list and the content |
| PartsLaws.DecodeFailures | adka2a/parts.go:189-211 | an unknown part kind fails with `unknown part type: ` and the kind; nil file content with `unknown file content type: <nil>`; bytes that are not base64 with the base64 error text, without its byte offset |
| PartsLaws.EncodeFailure | adka2a/parts.go:115-119 | a function response holding an unmarshallable value fails to encode |
| Base64.Encode | adka2a/parts.go:88 | standard base64 text: a whole number of four-character quanta, each from the alphabet or padding |
| Base64.StripNewlines | adka2a/parts.go:199 | what the decoder reads has no carriage return or line feed left, and is no longer than the input |
| Base64.DecodeEncode | adka2a/parts.go:88 | standard base64 decoding inverts encoding for every byte string (also line 199) |
| Base64.DecodeIgnoresNewlines | adka2a/parts.go:199 | a line feed inserted anywhere leaves the decoded bytes unchanged |
| Base64.IllegalCharRejected | adka2a/parts.go:199-202 | a quantum starting with a character outside the alphabet, the padding and the line breaks fails to decode, with the corrupt-input error |
| Base64.UnpaddedRejected | adka2a/parts.go:199-202 | unpadded input fails (`/w`) with the corrupt-input error, while the padded form `/w==` decodes to the single byte 0xff |
| GenAI.FunctionCallRoundTrip | adka2a/parts.go:237-242 | unmarshalling a function call's JSON object gives the call back (also line 138) |
| GenAI.FunctionResponseRoundTrip | adka2a/parts.go:251-256 | unmarshalling a function response's JSON object gives the response back (also line 116) |
| GenAI.ExecutableCodeRoundTrip | adka2a/parts.go:244-249 | unmarshalling executable code's JSON object gives the code back (also line 127) |
| GenAI.CodeExecutionResultRoundTrip | adka2a/parts.go:230-235 | unmarshalling a code execution result's JSON object gives the result back (also line 105) |
| Events.ToADKMetaKey | server/adka2a/events.go:107-109 | the key is `a2a:` followed by the given key |
| Events.TaskKeysDistinct | server/adka2a/events.go:27-28 | the task and context keys differ |
| Events.ToCustomMetadata | server/adka2a/events.go:112-117 | exactly the keys `a2a:task_id` and `a2a:context_id`, holding the IDs as strings |
| Events.GetA2ATaskInfo | server/adka2a/events.go:120-125 | a missing event or missing custom metadata gives two empty IDs |
| Events.TaskInfoRoundTrip | server/adka2a/events.go:112-133 | the IDs written by `ToCustomMetadata` are read back unchanged |
| Events.TaskInfoIgnoresNonStrings | server/adka2a/events.go:126-131 | non-string values under the two keys read as empty IDs |
| Events.ToGenAIRole | server/adka2a/events.go:254-260 | the wire user role maps to user, and every other role to model |
| Events.NewRemoteAgentEvent | server/adka2a/events.go:32-37 | an empty event of the invocation, authored by its agent on its branch |
| Events.WithParts | server/adka2a/events.go:149-151 | content is set exactly when there are parts, with those parts under the role; nothing else changes (also lines 203-205, 227-229) |
| Events.EventToMessage | server/adka2a/events.go:40-58 | a missing event gives no message; otherwise it succeeds iff the parts encode, and the message holds them in the user role exactly when the author is "user" |
| Events.GetLongRunningToolIDs | server/adka2a/events.go:235-252 | the loop's outcome is the specification `LongRunningIDs` |
| Events.LongRunningIDsPrefix | server/adka2a/events.go:237-249 | the IDs depend only on the converted parts at the positions of the wire parts |
| Events.LongRunningIDsAppend | server/adka2a/events.go:185-199 | the IDs of two runs of parts one after the other are the IDs of each, in order |
| Events.LongRunningIDsSound | server/adka2a/events.go:238-248 | every reported ID is that of a converted function call at a position flagged long-running |
| Events.LongRunningIDsRecovered | server/adka2a/events.go:235-252 | reading the IDs back from encoded and decoded parts gives exactly the calls whose ID was long-running, in order |
| Events.LongRunningIDsOfEncoded | server/adka2a/events.go:235-252 | for wire parts that encode the local parts one by one, the IDs read back are the calls whose ID was long-running, in order |
| Events.PartFlagOnlyOnCalls | server/adka2a/events.go:242 | an encoded part is flagged long-running exactly when it is a call whose ID is long-running |
| Events.MessageToEvent | server/adka2a/events.go:135-156 | fails iff there is no context or the parts do not decode; content iff there are parts, under the mapped role; task metadata iff the task or context ID is set |
| Events.ArtifactToEvent | server/adka2a/events.go:158-171 | fails iff there is no context or the parts do not decode; otherwise the agent's event with the parts under the model role |
| Events.FinalStatusToEvent | server/adka2a/events.go:213-233 | fails iff the message's parts do not decode; the event completes the turn, carries the task metadata, and has content iff the message has parts |
| Events.MarkThoughts | server/adka2a/events.go:96-98 | every part, and only its thought flag, is set |
| Events.InterimStatusToEvent | server/adka2a/events.go:84-99 | the corrected non-final branch: no message or no parts gives no event, a failed translation an error; otherwise the message's event with the update's IDs as custom metadata and content whose parts are the message's decoded parts, under the message's role, each marked as a thought |
| Events.InterimStatusToEventAsWritten | server/adka2a/events.go:84-99 | the branch as written agrees with the corrected one whenever it returns at all |
| Events.InterimStatusNilDereference | server/adka2a/events.go:88-93 | as written, an untranslatable message and a message with no parts both dereference nil |
| Events.TaskToEvent | server/adka2a/events.go:173-211 | the loop's outcome is the specification `TaskEvent` |
| Events.ArtifactsPartsErrorSticks | server/adka2a/events.go:180-184 | an artifact whose parts do not decode fails the task with the wrapped error |
| Events.ArtifactsPartsErrPrefix | server/adka2a/events.go:180-189 | once an artifact fails, later ones do not change the error |
| Events.ArtifactsPartsFlatten | server/adka2a/events.go:180-189 | decoding artifact by artifact is decoding all their parts at once, with the same long-running IDs |
| Events.TaskEventParts | server/adka2a/events.go:173-211 | the event holds all artifact parts then the status parts, content iff any, task metadata always, and long-running IDs only in the input-required state |
| Events.SessionEventOf | server/adka2a/events.go:61-104 | unknown kinds fail; an empty artifact update gives no event; tasks, messages and final updates give an event or an error; an artifact event has model content, the update's IDs and its long-running IDs |
| Events.ToSessionEvent | server/adka2a/events.go:61-104 | the method's outcome is `SessionEventOf` |
| Values.Marshal | adka2a/metadata.go:89-92 | marshalling succeeds exactly on values JSON can encode, giving their JSON text with fields in order and strings unescaped |
| Values.ToMapStructure | adka2a/metadata.go:88-99 | succeeds exactly for an encodable object or null, giving the object's fields (none for null) |
| ServerMetadata.ToA2AMetaKey | server/adka2a/metadata.go:24-26 | the key is `adk_` followed by the given key |
| ServerMetadata.ToA2AMetaKeyInjective | server/adka2a/metadata.go:24-26 | different keys get different prefixed keys |
| ServerMetadata.ToInvocationMeta | server/adka2a/metadata.go:34-45 | user `A2A_USER_` + context ID, session the context ID, and event metadata with exactly the app, user and session keys |
| ServerMetadata.InvocationKeysDisjoint | server/adka2a/metadata.go:38-74 | the invocation's keys and the per-event keys never collide |
| ServerMetadata.EventKeysDistinct | server/adka2a/metadata.go:53-74 | the five per-event keys are pairwise distinct |
| ServerMetadata.EventMeta | server/adka2a/metadata.go:47-80 | fails only when grounding metadata cannot be converted; keeps every invocation entry; each identifier, the error code and the grounding metadata appear exactly when set |
| ServerMetadata.ToEventMeta | server/adka2a/metadata.go:47-80 | the loops' outcome, in a fresh map, is `EventMeta` |
| LegacyMetadata.ToMetaKey | adka2a/metadata.go:43-45 | the key is `adk_` followed by the given key |
| LegacyMetadata.ToInvocationMeta | adka2a/metadata.go:30-41 | the same derivation of user and session, with the configuration's app name |
| LegacyMetadata.InvocationKeysDisjoint | adka2a/metadata.go:34-78 | the invocation's keys and the per-event keys never collide |
| LegacyMetadata.EventKeysDistinct | adka2a/metadata.go:53-78 | the five per-event keys are pairwise distinct |
| LegacyMetadata.EventMeta | adka2a/metadata.go:47-83 | without a response only the identifiers are added and nothing fails; otherwise the error code and the converted grounding metadata are added too, with their values, failing only on unconvertible grounding metadata |
| LegacyMetadata.ToEventMeta | adka2a/metadata.go:47-83 | the loops' outcome, in a fresh map, is `EventMeta` |
| Processor.ErrorFromResponse | server/adka2a/processor.go:152-154 | the text is `llm error response: ` and the model error message between double quotes, escaped so that unescaping gives the message back, and exactly the message when it has no quote or backslash |
| ProcessorLaws.ErrorFromResponseEscapes | server/adka2a/processor.go:153 | the message `a"b` gives `llm error response: "a\"b"` |
| Text.Quote | server/adka2a/processor.go:153 | `%q` puts the text between double quotes, escaped so that it can be read back, and unchanged when it has no quote or backslash |
| Text.UnescapeEscape | server/adka2a/processor.go:153 | escaping a text and reading it back gives the text |
| Text.EscapePlain | server/adka2a/processor.go:153 | a text without quotes or backslashes is not changed by escaping |
| Processor.TaskFailedUpdate | server/adka2a/processor.go:135-141 | a final Failed status of the task whose agent message is the cause's text, carrying the given metadata |
| Processor.InputRequiredUpdate | server/adka2a/processor.go:76-77 | a final InputRequired status of the task with no message and no metadata |
| Processor.IsInputRequired | server/adka2a/processor.go:143-150 | true exactly when some part calls one of the event's long-running tools |
| Processor.RecordError | server/adka2a/processor.go:64-69 | recording a model error never touches the response ID |
| Processor.RecordInputRequired | server/adka2a/processor.go:75-79 | recording input-required never touches the response ID |
| Wire.NewArtifactEvent | server/adka2a/processor.go:88 | the first chunk of a new artifact under the fresh ID, with the task's IDs, not appended and not last |
| Wire.NewArtifactUpdate | server/adka2a/processor.go:91 | a chunk of the artifact with the given ID and the task's IDs, appended and not last |
| Processor.Chunk | server/adka2a/processor.go:86-95 | the first chunk allocates the response ID and is not marked as appended; later ones reuse the ID and are; the new state holds that ID |
| Processor.CompletedUpdate | server/adka2a/processor.go:116-118 | a final Completed status carrying the invocation's metadata |
| Processor.TerminalEvents | server/adka2a/processor.go:100-121 | one or two events; a last empty chunk, appended to the response artifact, exactly when a response was started; then the Failed slot, else the InputRequired slot, else Completed |
| Processor.TaskFailedEvent | server/adka2a/processor.go:123-133 | a final Failed status with the cause's text, carrying the event's metadata when it computes and the invocation's otherwise |
| Processor.EventProcessor.constructor | server/adka2a/processor.go:45-51 | a processor for the task and invocation, with no response ID and nothing stored |
| Processor.EventProcessor.Process | server/adka2a/processor.go:53-98 | the result and the new fields are one step of the specification `Step` from the old fields |
| Processor.EventProcessor.MakeTerminalEvents | server/adka2a/processor.go:100-121 | the result is `TerminalEvents` of the current fields |
| ProcessorLaws.InitialStateValid | server/adka2a/processor.go:45-51 | the initial state is reachable-valid and has no response ID |
| ProcessorLaws.StepPreservesValid | server/adka2a/processor.go:53-98 | every step keeps the stored updates under the Failed key only, each final and Failed or InputRequired |
| ProcessorLaws.StepWithoutMetaChangesNothing | server/adka2a/processor.go:54-61 | no event gives no result, and an event whose metadata fails gives that error, both with the state unchanged |
| ProcessorLaws.ResponseIDStable | server/adka2a/processor.go:86-92 | a set response ID never changes; an unset one becomes the fresh ID or stays unset; every chunk carries the state's ID; a step without a chunk keeps the ID |
| ProcessorLaws.ArtifactChunk | server/adka2a/processor.go:71-97 | a chunk carries the task's IDs, is not the last chunk, holds the encoded parts, has metadata exactly when the event's is non-empty, and is marked as appended exactly when the artifact was already started |
| ProcessorLaws.NoContentNoChunk | server/adka2a/processor.go:71-73 | without content parts there is no chunk and the response ID is unchanged |
| ProcessorLaws.ErrorRecorded | server/adka2a/processor.go:64-69 | a model error fills an empty Failed slot with the Failed status carrying the quoted message |
| ProcessorLaws.StepTerminalEvents | server/adka2a/processor.go:63-84 | the stored updates after a step are the error, then the input-required update, recorded in that order; the conversion and the chunk leave them alone |
| ProcessorLaws.StoredUpdateKept | server/adka2a/processor.go:66-79 | a stored update is replaced only by the input-required update, never by a later error |
| ProcessorLaws.InputRequiredRecorded | server/adka2a/processor.go:75-79 | a long-running call stores the input-required update under the Failed key, whatever was there |
| ProcessorLaws.TerminalStatus | server/adka2a/processor.go:109-120 | the closing status is final, is Completed exactly when nothing is stored, and otherwise is the stored update |
| ProcessorLaws.InputRequiredOverridesEarlierError | server/adka2a/processor.go:39-78 | an error followed by a long-running call closes the task as input-required, so Failed does not take priority as documented |
| ProcessorLaws.ErrorAfterInputRequiredHidden | server/adka2a/processor.go:66-78 | once input is required, a later model error is not reported |
| ProcessorLaws.FailedEventMeta | server/adka2a/processor.go:123-133 | without an event the invocation's metadata is used; with one whose metadata computes, that metadata |
| Runtime.Delivered | server/adka2a/executor.go:74-142 | the writes that succeed before the first failing write, and no more |
| Runtime.DeliveredUnique | server/adka2a/executor.go:74-142 | that count is the only one with its three properties |
| Runtime.DeliveredAppend | server/adka2a/executor.go:132-143 | a second batch of writes starts only once the first was fully delivered |
| Runtime.Queue.Write | server/adka2a/executor.go:74 | one more attempt; the event is appended exactly when the attempt succeeds (also lines 83, 91, 117, 126, 133, 140) |
| Runtime.SessionStore.Get | server/adka2a/executor.go:151-158 | a session is returned exactly when the lookup works and the key is stored |
| Runtime.SessionStore.Create | server/adka2a/executor.go:160-165 | the key is added unless creation fails |
| ServerExecutor.WriteFailure | server/adka2a/executor.go:117-142 | a plain write's error is returned as is; the others wrap it |
| ServerExecutor.PlanItem | server/adka2a/executor.go:114-136 | a run error or processor error writes one Failed status and stops; otherwise the processor steps on and its chunk, if any, is written |
| ServerExecutor.ProcessItem | server/adka2a/executor.go:114-136 | the loop body writes the item's plan, stops exactly on a failed write or a stopping item, and leaves the processor in the planned state |
| ServerExecutor.WriteTerminal | server/adka2a/executor.go:139-143 | the terminal events are written in order until the first failing write |
| ServerExecutor.RunItems | server/adka2a/executor.go:114-137 | the loop writes the run's plan until it stops; if it runs out of items, everything so far is delivered and only the terminal events remain |
| ServerExecutor.Process | server/adka2a/executor.go:112-146 | the writes and the result are those of `RunPlan` with failures cut at the first failing write |
| ServerExecutor.PrepareOutcome | server/adka2a/executor.go:148-170 | get-or-create: success iff the session exists or can be created; failure leaves the store and says `failed to create a session: ` |
| ServerExecutor.PrepareSession | server/adka2a/executor.go:148-170 | the error and the new store are `PrepareOutcome` |
| ServerExecutor.EarlyFailure | server/adka2a/executor.go:59-70 | a missing message gives `message not provided`; nothing is returned early iff the message converts and the runner is created |
| ServerExecutor.WorkingUpdate | server/adka2a/executor.go:89-90 | a non-final Working status carrying the invocation's metadata |
| ServerExecutor.SetupPlan | server/adka2a/executor.go:72-93 | Submitted first for a new task, then the Failed status of a session not prepared, or Working |
| ServerExecutor.ExecutePlan | server/adka2a/executor.go:72-98 | the setup writes, then the run's writes only when the session was prepared |
| ServerExecutor.Setup | server/adka2a/executor.go:72-93 | the setup writes up to the first failure, and the session prepared only if Submitted was written |
| ServerExecutor.Execute | server/adka2a/executor.go:58-101 | an early failure writes nothing and leaves the store; otherwise the writes follow `ExecutePlan` up to the first failing write |
| ServerExecutor.Launch | server/adka2a/executor.go:72-100 | once accepted, the setup and the run are written as `ExecutePlan` |
| ServerExecutor.Cancel | server/adka2a/executor.go:103-109 | exactly one Canceled status write |
| ServerExecutorLaws.SubmittedIffNewTask | server/adka2a/executor.go:72-77 | the first write is Submitted exactly when there is no stored task |
| ServerExecutorLaws.PrepareFailureEndsTask | server/adka2a/executor.go:81-87 | a session not prepared ends the task with one Failed status, and no Working status or run |
| ServerExecutorLaws.WorkingBeforeRun | server/adka2a/executor.go:89-96 | Working, with the invocation's metadata, is the last write before the run's own |
| ServerExecutorLaws.TerminalPlanShape | server/adka2a/executor.go:139-143 | the terminal writes are chunks followed by one final status |
| ServerExecutorLaws.ChunksThenFinalPrefix | server/adka2a/executor.go:132-136 | artifact writes before such a sequence keep its shape |
| ServerExecutorLaws.RunPlanShape | server/adka2a/executor.go:112-146 | whatever the run yields, `process` writes chunks in order and then exactly one final status; every chunk after the first of a new artifact is marked as appended |
| ServerExecutorLaws.TerminalPlanAppend | server/adka2a/processor.go:100-107 | the last chunk of the terminal events is appended to the started artifact |
| ServerExecutorLaws.AppendFlagsPrefix | server/adka2a/processor.go:86-92 | a chunk written before a plan for the started artifact keeps the append flags |
| ServerExecutorLaws.RunPlanAppend | server/adka2a/processor.go:86-107 | in what `process` writes, only the first chunk of a new artifact is not marked as appended; the later chunks and the last chunk are |
| ServerExecutorLaws.RunErrorEndsRun | server/adka2a/executor.go:115-121 | a run error writes one Failed status `agent run failed: …` and nothing after it |
| ServerExecutorLaws.ProcessorErrorEndsRun | server/adka2a/executor.go:123-130 | a processor error writes one Failed status about that event and nothing after it |
| ServerExecutorLaws.ChunkWrittenInOrder | server/adka2a/executor.go:132-136 | an event's chunk is written before anything later items cause |
| ServerExecutorLaws.WroteOutcomeMeaning | server/adka2a/executor.go:74-142 | after a write sequence the queue holds a prefix of the plan; success iff the whole plan was delivered; a failure names the write that failed |
| LegacyExecutor.LastOptionWins | adka2a/executor.go:45-75 | applying options in order, the last `WithRunConfig` wins |
| LegacyExecutor.ApplyOptionsAppend | adka2a/executor.go:73-75 | applying two lists of options one after the other is applying their concatenation |
| LegacyExecutor.TaskInfoOf | adka2a/executor.go:94-96 | the stored task's IDs, else a task built from the request's task and context IDs |
| LegacyExecutor.ProcessorMeta | adka2a/executor.go:103-119 | the invocation metadata passed on unchanged |
| LegacyExecutor.InvocationMetaAgrees | adka2a/metadata.go:30-41 | both packages derive the same invocation metadata from a request |
| LegacyExecutor.Executor.constructor | adka2a/executor.go:68-77 | the default run configuration, then every option in order |
| LegacyExecutor.Executor.Execute | adka2a/executor.go:79-125 | as the server variant, with the task built from the request when none is stored |
| LegacyExecutor.Executor.Cancel | adka2a/executor.go:127-137 | no task gives `no task provided` and writes nothing; otherwise exactly one Canceled status write |
| RemoteHistory.FirstResponseIndex | agent/remoteagent/utils.go:76-81 | the index of the first part with a function response, with none before it; none exactly when no part has one |
| RemoteHistory.FunctionResponseCallID | agent/remoteagent/utils.go:72-83 | an ID exactly when the content has a function-response part, and it is the ID of the first such part |
| RemoteHistory.LastCallBefore | agent/remoteagent/utils.go:48-58 | the nearest earlier event calling the ID, with no call of it in between; none when no earlier event calls it |
| RemoteHistory.UserFunctionCallAt | agent/remoteagent/utils.go:36-47 | a result only for an index in range whose event is by the user and has content, and it carries that event |
| RemoteHistory.GetUserFunctionCallAt | agent/remoteagent/utils.go:36-60 | the backward search loop returns exactly the specified user function call |
| RemoteHistory.UserFunctionCallAtMeaning | agent/remoteagent/utils.go:36-60 | a result exactly when the last event is a user's function response whose ID some earlier event calls; task and context come from the nearest such call |
| Text.SortByKey | agent/remoteagent/utils.go:145-149 | the printed entries of a map are a permutation of its fields ordered by key, as `%v` orders map keys |
| Values.GoStringSortsKeys | agent/remoteagent/utils.go:145-149 | the arguments `{"b": 1, "a": 2}` are narrated as `map[a:2 b:1]` |
| RemoteHistory.PresentedParts | agent/remoteagent/utils.go:136-154 | presenting the parts never adds parts |
| RemoteHistory.PresentedPartsCount | agent/remoteagent/utils.go:136-154 | one presented part per part that is not a thought, and none when all are thoughts |
| RemoteHistory.NonThoughts | agent/remoteagent/utils.go:137-139 | the parts kept contain no thought |
| RemoteHistory.Presented | agent/remoteagent/utils.go:126-159 | a user event of the invocation with no long-running tools; content is a user content led by "For context:" and at least one more part |
| RemoteHistory.PresentedContent | agent/remoteagent/utils.go:130-157 | content exactly when the agent event has a part that is not a thought, and then one part more than its non-thought parts |
| RemoteHistory.PresentAsUserMessage | agent/remoteagent/utils.go:126-159 | the presentation loop builds exactly the presented event |
| RemoteHistory.LastAuthoredBy | agent/remoteagent/utils.go:95-105 | the last index before n authored by the agent, or -1, with no later event by it |
| RemoteHistory.LastAuthoredByPrefix | agent/remoteagent/utils.go:95-105 | an event by someone else does not move the cut |
| RemoteHistory.LastAuthoredBySame | agent/remoteagent/utils.go:95-105 | the cut depends only on the events it scans |
| RemoteHistory.Contribute | agent/remoteagent/utils.go:109-121 | one forward iteration: other authors presented as the user, empty or unencodable content contributes nothing |
| RemoteHistory.ToMissingRemoteSessionParts | agent/remoteagent/utils.go:91-124 | the backward and forward passes give the parts of every event after the agent's last one, and that event's context ID |
| RemoteHistory.ForwardPass | agent/remoteagent/utils.go:107-122 | for any loop body, the forward loop yields the bodies' outputs for the events from the cut on, concatenated in order; the history driver passes the body that `Contribute` computes |
| RemoteHistory.MissingPartsByAppendOther | agent/remoteagent/utils.go:95-104 | for any contribution and context reader, an event by another author appends its contribution and keeps the context |
| RemoteHistory.MissingPartsAppendOther | agent/remoteagent/utils.go:91-124 | a new event by another author appends its contribution and keeps the context ID |
| RemoteHistory.MissingPartsAppendOwn | agent/remoteagent/utils.go:100-104 | a new event by the agent itself resets the missing parts to none, with its own context ID |
| RemoteAgent.CardSourceOf | agent/remoteagent/a2a_agent.go:130-144 | the configured card first, a URL resolver exactly for an http:// or https:// source, and otherwise a file |
| RemoteAgent.ResolveAgentCard | agent/remoteagent/a2a_agent.go:130-155 | the resolver with the file branch corrected (see Findings): the configured card; the fetched card or the wrapped fetch error; the file's read error, decode error or decoded card |
| RemoteAgent.ConfiguredCardNoIO | agent/remoteagent/a2a_agent.go:131-133 | a configured card is returned whatever the I/O does |
| RemoteAgent.RemoteCardOnlyFetches | agent/remoteagent/a2a_agent.go:135-142 | a URL source depends only on the fetch, and the source as written agrees there |
| RemoteAgent.FileCardNeverLoadsAsWritten | agent/remoteagent/a2a_agent.go:149-152 | as written, a file source never yields a card: well-formed JSON fails with the nil-target error |
| RemoteAgent.FileCardCounterexample | agent/remoteagent/a2a_agent.go:149-152 | a readable file holding "{}" fails as written but loads once decoded into a card |
| RemoteAgent.FileCardLoads | agent/remoteagent/a2a_agent.go:144-154 | with the decode target fixed, a readable, decodable file yields its card |
| RemoteAgent.ToErrorEvent | agent/remoteagent/a2a_agent.go:175-182 | an event of the invocation by the agent, no content, the error as its message and as its only metadata entry |
| RemoteAgent.MetadataKeysDistinct | agent/remoteagent/a2a_agent.go:179-199 | the error, request, response and codec-error keys are all different |
| RemoteAgent.UpdateCustomMetadataMeaning | agent/remoteagent/a2a_agent.go:184-202 | nothing changes without request and response; otherwise the request's payload (or codec error) is stored under the request key and, with a response, under the response key too, and every other entry is kept |
| RemoteAgent.UpdateOrderIrrelevant | agent/remoteagent/a2a_agent.go:191 | the map iteration order of the two keys does not change the metadata |
| RemoteAgent.ContinuationMessage | agent/remoteagent/a2a_agent.go:159-166 | a user message of the response event's encoded parts with the call's task and context; an error exactly when the parts do not encode |
| RemoteAgent.NewMessageOf | agent/remoteagent/a2a_agent.go:157-173 | a continuation of a pending user function call, or else a user message of the missing parts with the found context ID and no task |
| RemoteAgent.NewMessage | agent/remoteagent/a2a_agent.go:157-173 | the message built is exactly the specified one |
| RemoteAgent.Translate | agent/remoteagent/a2a_agent.go:112-121 | a failure exactly when conversion fails, with the wrapped error; a translation exactly when conversion yields an event |
| RemoteAgent.TranslateEvent | agent/remoteagent/a2a_agent.go:112-121 | the conversion step gives exactly the specified translation |
| RemoteAgent.FailureEventMeaning | agent/remoteagent/a2a_agent.go:106-117 | the failure event holds the error and only the request payload (or its codec error) besides |
| RemoteAgent.StreamStopsOnRefusal | agent/remoteagent/a2a_agent.go:123-125 | at most one event more than the consumer accepts, and never more events than stream items |
| RemoteAgent.StreamInOrder | agent/remoteagent/a2a_agent.go:105-126 | with every item translated, one event per item in stream order |
| RemoteAgent.StreamFailureEnds | agent/remoteagent/a2a_agent.go:106-118 | a failing item after k yielded ones ends the run with its error event as event k+1 |
| RemoteAgent.StreamSkipsUntranslated | agent/remoteagent/a2a_agent.go:119-121 | an item with no translation is skipped wherever it is |
| RemoteAgent.StreamStep | agent/remoteagent/a2a_agent.go:105-126 | one item's effect on the events of the rest of the stream |
| RemoteAgent.NextItem | agent/remoteagent/a2a_agent.go:106-125 | the loop body yields and ends exactly as the step of the specification says |
| RemoteAgent.StreamLoop | agent/remoteagent/a2a_agent.go:105-126 | the streaming loop yields exactly the specified events |
| RemoteAgent.RunWithOutcomes | agent/remoteagent/a2a_agent.go:74-127 | given the card resolution's result, each failure before sending yields one error event naming its stage, a message with no parts one empty event, and otherwise the streamed events |
| RemoteAgent.RunSetupOutcomes | agent/remoteagent/a2a_agent.go:74-102 | the run as written: each failure before sending yields one error event naming its stage; a message with no parts yields one empty event; a file card source always yields only the card-resolution error event, the nil-target error for a readable, well-formed file |
| RemoteAgent.CorrectedRunAgrees | agent/remoteagent/a2a_agent.go:74-78 | the run with the corrected resolver equals the run as written except for a file source, where a readable, decodable file lets it go on with the decoded card |
| RemoteAgent.A2AAgent.constructor | agent/remoteagent/a2a_agent.go:58 | the agent starts with the configured card |
| RemoteAgent.A2AAgent.Run | agent/remoteagent/a2a_agent.go:72-128 | the events of the run as written, in order; the stored card is the last one resolved |
| RemoteAgent.New | agent/remoteagent/a2a_agent.go:53-66 | refuses exactly a configuration with neither card nor card source; otherwise a new agent holding the configured card |
| AgentCard.SkillName | server/adka2a/agent_card.go:290-298 | "model" exactly for an LLM agent, "workflow" exactly for a workflow agent, "custom" exactly for a custom agent |
| AgentCard.TablesInjective | server/adka2a/agent_card.go:260-288 | different agent types get different type tags and different default descriptions |
| AgentCard.ReplaceFromNoMatch | server/adka2a/agent_card.go:254-255 | a text where the pattern matches nowhere is left unchanged |
| AgentCard.ReplaceFromSplits | server/adka2a/agent_card.go:254-255 | the text before the first match is copied, the match replaced, and the scan resumes after it |
| AgentCard.ReplacePronouns | server/adka2a/agent_card.go:238-258 | the substitution loop returns the seven substitutions applied in order |
| AgentCard.NoPronounUnchanged | server/adka2a/agent_card.go:238-258 | an instruction in which no pronoun occurs as a word is returned unchanged |
| AgentCard.EmbeddedNotMatched | server/adka2a/agent_card.go:254 | a pronoun followed by a word character (as in "youth") is not a match |
| AgentCard.MatchIgnoresCase | server/adka2a/agent_card.go:254 | matching ignores ASCII letter case |
| AgentCard.ReplaceLeading | server/adka2a/agent_card.go:254-255 | a pattern that matches at the start of a text and whose first letter does not occur after it is replaced there once, and the rest is copied |
| AgentCard.KeepMismatch | server/adka2a/agent_card.go:254-255 | a pattern that does not match at the start, and whose first letter occurs nowhere else, leaves the text unchanged |
| AgentCard.NoYUnchanged | server/adka2a/agent_card.go:245-252 | phrases that all start with a y leave a text without a y unchanged |
| AgentCard.YouAreSteps | server/adka2a/agent_card.go:245-256 | on "You are" followed by text without a y, "you were" changes nothing, "you are" gives "I am" and "you" alone gives "I are" |
| AgentCard.YouAreRewritten | server/adka2a/agent_card.go:243-256 | "You are …" becomes "I am …"; applying "you" first would have given "I are …", which the longest-first order of the list prevents |
| AgentCard.YouAreExample | server/adka2a/agent_card_test.go:378-379 | "You are a helpful chatbot" becomes "I am a helpful chatbot" |
| AgentCard.Phrases | server/adka2a/agent_card.go:149-215 | one phrase per sub-agent |
| AgentCard.FillPhrases | server/adka2a/agent_card.go:152-209 | the filled array holds exactly the phrases of the sub-agents, in order |
| AgentCard.BuildSequentialDescription | server/adka2a/agent_card.go:149-167 | the built text is the sequential phrasing joined with spaces |
| AgentCard.BuildParallelDescription | server/adka2a/agent_card.go:169-187 | the built text is the chained phrasing followed by " simultaneously." |
| AgentCard.BuildLoopDescription | server/adka2a/agent_card.go:189-215 | the chained phrasing with the iteration bound, or "unlimited"; empty without a loop configuration |
| AgentCard.SequentialOne | server/adka2a/agent_card.go:149-187 | a single sub-agent is phrased as the first one, never as the last |
| AgentCard.TwoSubAgents | server/adka2a/agent_card.go:149-187 | two sub-agents are phrased first and finally, or "This agent will" and "and" |
| AgentCard.ThreeSubAgents | server/adka2a/agent_card.go:149-187 | middle sub-agents are phrased "Then," or ", " |
| AgentCard.JoinOrDefault | server/adka2a/agent_card.go:142-146 | the parts joined with spaces, or the type's default description when there are none (also lines 229-233) |
| AgentCard.BuildAgentDescription | server/adka2a/agent_card.go:124-147 | the agent's own description, then its workflow description when it has sub-agents, else the default |
| AgentCard.BuildDescriptionFromInstructions | server/adka2a/agent_card.go:217-234 | the description, then the instruction and the global instruction with pronouns replaced, else the default |
| AgentCard.DescriptionFallsBack | server/adka2a/agent_card.go:142-146 | with no description and no instructions, the type's default description is used (also lines 229-233) |
| AgentCard.LLMAgentSkills | server/adka2a/agent_card.go:62-90 | the model skill and one skill per tool |
| AgentCard.BuildLLMAgentSkills | server/adka2a/agent_card.go:62-90 | the tool loop builds exactly the specified skills |
| AgentCard.ToolSkillDescription | server/adka2a/agent_card.go:73-83 | tool skill i is named after the agent and the tool, and described by the tool or "Tool: name" |
| AgentCard.NonLLMAgentSkills | server/adka2a/agent_card.go:92-122 | one skill, plus the orchestration skill exactly when there are sub-agents |
| AgentCard.BuildNonLLMAgentSkills | server/adka2a/agent_card.go:92-122 | the description loop builds exactly the specified skills |
| AgentCard.BuildPrimarySkills | server/adka2a/agent_card.go:36-42 | the LLM skills for an LLM agent, else the non-LLM skills |
| AgentCard.PrimarySkillsShape | server/adka2a/agent_card.go:36-122 | the first skill has the agent's name as ID; "model" and "llm" for an LLM agent, else the type's skill name and tag; a "sub-agents" skill exactly when a non-LLM agent has sub-agents |
| AgentCard.SubSkills | server/adka2a/agent_card.go:49-57 | one prefixed skill per skill of the sub-agent |
| AgentCard.AppendSubSkills | server/adka2a/agent_card.go:49-57 | the inner loop appends exactly the sub-agent's prefixed skills |
| AgentCard.BuildSubAgentSkills | server/adka2a/agent_card.go:44-60 | the outer loop builds exactly the specified sub-agent skills |
| AgentCard.SubAgentSkillsMeaning | server/adka2a/agent_card.go:44-60 | every sub-agent skill is a primary skill of some direct sub-agent, prefixed with its name and tagged "sub_agent:" with it |
| AgentCard.SubAgentSkillsComplete | server/adka2a/agent_card.go:44-60 | every primary skill of every direct sub-agent is listed among the sub-agent skills, renamed after it |
| AgentCard.BuildAgentSkills | server/adka2a/agent_card.go:32-34 | the primary skills followed by the sub-agent skills |
| AgentCard.AgentSkillsSplit | server/adka2a/agent_card.go:32-34 | the card's skills split into the primary skills and then the sub-agent skills |
| AgentGraph.ShouldBuildAgentCluster | server/restapi/services/agentgraphgenerator.go:88-99 | exactly the loop, sequential and parallel agents are drawn as clusters (also lines 38-42) |
| AgentGraph.NodeCaption | server/restapi/services/agentgraphgenerator.go:58-75 | every caption is a quoted string |
| AgentGraph.AgentCaptions | server/restapi/services/agentgraphgenerator.go:58-86 | an agent is an ellipse captioned with its name and type when it is a workflow, else a robot and its name |
| AgentGraph.ToolCaption | server/restapi/services/agentgraphgenerator.go:69-82 | a tool is a box captioned with a wrench and its name |
| AgentGraph.OtherCaption | server/restapi/services/agentgraphgenerator.go:54-84 | anything else is a cylinder with the fixed caption and name |
| AgentGraph.Highlighted | server/restapi/services/agentgraphgenerator.go:101-111 | true exactly when some pair mentions the name |
| AgentGraph.EdgeHighlightedMeaning | server/restapi/services/agentgraphgenerator.go:123-138 | none when no two-name pair joins the nodes; otherwise the first such pair decides, true when it runs from-to |
| AgentGraph.LinkTarget | server/restapi/services/agentgraphgenerator.go:150-169 | a link target is always a sub-agent of the cluster |
| AgentGraph.Size | server/restapi/services/agentgraphgenerator.go:270-275 | every agent tree has at least one agent (the recursion measure) |
| AgentGraph.ForestSizeBound | server/restapi/services/agentgraphgenerator.go:270-275 | each sub-tree is no larger than the forest it sits in |
| AgentGraph.SubAgentSmaller | server/restapi/services/agentgraphgenerator.go:145-146 | a sub-agent's tree is smaller than its parent's, so the drawing terminates (also lines 270-271) |
| AgentGraph.Chain | server/restapi/services/agentgraphgenerator.go:140-277 | two drawing steps that only add compose into one that only adds |
| AgentGraph.DrawEdgeOn | server/restapi/services/agentgraphgenerator.go:221-237 | appends exactly one edge to the graph being drawn and changes nothing else |
| AgentGraph.DrawNodeOn | server/restapi/services/agentgraphgenerator.go:175-219 | only adds, only to the graph and its parent, only nodes to the parent, and marks the name visited |
| AgentGraph.DrawClusterFrom | server/restapi/services/agentgraphgenerator.go:140-173 | only adds, never adds subgraphs to the parent, and visits every remaining sub-agent |
| AgentGraph.BuildGraphOn | server/restapi/services/agentgraphgenerator.go:239-277 | only adds, only to the graph and its parent, and the agent ends visited |
| AgentGraph.ToolsFrom | server/restapi/services/agentgraphgenerator.go:257-269 | the tool loop only adds, and only nodes to the parent |
| AgentGraph.SubAgentsFrom | server/restapi/services/agentgraphgenerator.go:270-275 | the sub-agent loop only adds, and only nodes to the parent |
| AgentGraph.AgentGraphOf | server/restapi/services/agentgraphgenerator.go:279-299 | the rendered graph is named AgentGraph, directed, left to right, on the background colour |
| AgentGraph.LinkStep | server/restapi/services/agentgraphgenerator.go:150-169 | step i of a cluster draws its link exactly when it has a target |
| AgentGraph.DrawClusterEdgesFrom | server/restapi/services/agentgraphgenerator.go:145-171 | the remaining steps add the remaining links to the parent, in order |
| AgentGraph.LinkStepsEnd | server/restapi/services/agentgraphgenerator.go:145-171 | a cluster has no more links than sub-agents |
| AgentGraph.DrawClusterEdges | server/restapi/services/agentgraphgenerator.go:140-173 | a cluster adds to its parent exactly the edges of its chain or ring of sub-agents, or none when parallel |
| AgentGraph.DrawEdgeAttributes | server/restapi/services/agentgraphgenerator.go:221-237 | the new edge is green exactly when a pair joins its ends, and drawn backwards exactly when the first such pair runs the other way |
| AgentGraph.DrawNodeAttributes | server/restapi/services/agentgraphgenerator.go:204-217 | a plain node carries caption and shape and is dark green and filled exactly when a pair mentions it |
| AgentGraph.ClusterRegistered | server/restapi/services/agentgraphgenerator.go:183-202 | a workflow agent becomes a fresh cluster graph registered with its caption, and no node of the parent |
| AgentGraph.BuildGraphOnce | server/restapi/services/agentgraphgenerator.go:244-246 | a visited name is not drawn again, so building twice is building once |
| AgentGraph.KeptEdge | server/restapi/services/agentgraphgenerator.go:221-237 | an edge once drawn stays |
| AgentGraph.ToolsFromDraws | server/restapi/services/agentgraphgenerator.go:257-269 | every remaining tool gets a node and an edge from the agent |
| AgentGraph.BuildGraphDrawsTools | server/restapi/services/agentgraphgenerator.go:248-269 | an unvisited LLM agent gets a node, and each tool a node and an edge from the agent |
| AgentGraph.SubAgentsFromVisited | server/restapi/services/agentgraphgenerator.go:244-275 | sub-agents already visited draw nothing |
| AgentGraph.WorkflowRootEdges | server/restapi/services/agentgraphgenerator.go:279-299 | for a workflow root the rendered graph holds exactly the root cluster's links and registers its cluster |
| AgentGraph.Canvas.constructor | server/restapi/services/agentgraphgenerator.go:293 | the generator starts with the given graphs and nothing visited |
| AgentGraph.Canvas.DrawEdge | server/restapi/services/agentgraphgenerator.go:221-237 | the new state is the specified edge drawing |
| AgentGraph.Canvas.DrawNode | server/restapi/services/agentgraphgenerator.go:175-219 | the new state is the specified node drawing |
| AgentGraph.Canvas.DrawCluster | server/restapi/services/agentgraphgenerator.go:140-173 | the new state is the specified cluster drawing |
| AgentGraph.Canvas.BuildGraph | server/restapi/services/agentgraphgenerator.go:239-277 | the new state is the specified build |
| AgentGraph.GetAgentGraph | server/restapi/services/agentgraphgenerator.go:279-299 | returns the specified root graph, whose properties the lemmas above state |
| AgentLoader.SingleAgentLoader.LoadAgent | server/restapi/services/agentloader.go:55-63 | succeeds exactly for the empty name and the root's name, always with the root |
| AgentLoader.SingleListedNamesLoad | server/restapi/services/agentloader.go:50-68 | the one listed name, and the empty name, load the root |
| AgentLoader.RepeatsIffNotDistinct | server/restapi/services/agentloader.go:72-86 | some agent repeats a name exactly when the root's and the agents' names are not all different |
| AgentLoader.NewMultiAgentLoader | server/restapi/services/agentloader.go:72-86 | fails exactly when a name repeats, naming the first repeat; otherwise every agent and the root are keyed by their names |
| AgentLoader.MultiAgentLoader.ListAgents | server/restapi/services/agentloader.go:89-95 | every key exactly once |
| AgentLoader.MultiAgentLoader.LoadAgent | server/restapi/services/agentloader.go:98-104 | the agent under the name exactly when it is a key, else an error naming it |
| RestEvent.UnixTime | server/restapi/models/event.go:55 | a valid timestamp at the whole second |
| RestEvent.ToSessionEvent | server/restapi/models/event.go:50-72 | a session event at a whole second with no custom metadata |
| RestEvent.FromSessionEvent | server/restapi/models/event.go:75-95 | the record's time is the event's whole seconds |
| RestEvent.RecordRoundTrip | server/restapi/models/event.go:50-95 | a record converted to a session event and back is unchanged |
| RestEvent.RecordFieldsCarried | server/restapi/models/event.go:50-72 | each record field lands in the session field of the same name |
| RestEvent.SessionRoundTrip | server/restapi/models/event.go:50-95 | the other round trip truncates to the second and drops custom metadata, and is exact just when there is nothing to drop |
| RestEvent.FromSessionEventForgets | server/restapi/models/event.go:75-95 | events that differ only in sub-second time and custom metadata give the same record |
| RestSession.Param | server/restapi/models/session.go:40-55 | the path parameter's value, or empty when absent |
| RestSession.SessionIDFromHTTPParameters | server/restapi/models/session.go:46-66 | the three parameters, and an error exactly when the application or the user is missing, the application checked first |
| RestSession.SessionIDOptional | server/restapi/models/session.go:41-65 | whether the parameters pass does not depend on the session ID |
| RestSession.Session.Validate | server/restapi/models/session.go:86-106 | any error is one of the six validation messages |
| RestSession.ValidateReportsFirstFailure | server/restapi/models/session.go:86-106 | check k's message is reported exactly when check k is the first that fails |
| RestSession.ValidateNilIffAllPass | server/restapi/models/session.go:86-106 | no error exactly when every check passes |
| RestSession.FromSession | server/restapi/models/session.go:68-84 | identity, whole-second update time, a copy of the state, each event converted in order, and an error exactly when a string field or the time is empty |
| RestSession.CopyState | server/restapi/models/session.go:69-70 | the fresh map holds exactly the session's state entries |

## Left out

- Network and transport: the card fetch, `os.ReadFile`, client creation, `SendStreamingMessage` and client destruction are parameters (`RemoteAgent.CardIO`, `RemoteAgent.RunIO`) that return a success or an error and a finite stream.
- The client factory and the default client are not distinguished: both are one client-creation parameter.
- The consumer of a run's events is reduced to the number of events it accepts before it refuses one.
- The event queue, the session service and the agent runner are small stateful stand-ins (`Runtime`). Queue write failures come from a set of failing attempt numbers, and the runner's events are an input sequence.
- Event IDs, timestamps, task IDs and artifact IDs (`session.NewEvent`, `a2a.NewTaskID`, `a2a.NewArtifactID`) are fixed placeholders or parameters, because they are fresh random or clock values. `a2a.NewMessage` and `a2a.NewMessageForTask` also mint a fresh message ID; `Wire.Message` has no ID field, so that ID is not modelled.
- `encoding/json`, mapstructure and `converters.ToMapStructure` are modelled as total functions on a small value type (`Values`). Only the typed records a part can hold, and the `Unsupported` value that `json.Marshal` rejects, are distinguished. There are no field-name case-insensitive matching, no number-precision effects and no decoder errors beyond that. `converters.ToMapStructure` is not part of this model; it is treated like `toMapStructure`.
- `%q` is modelled as the text between double quotes with a backslash before each `"` and `\` (`Text.Quote`). Go's escaping of control and non-printable characters is not modelled.
- Processor.ErrorFromResponse: control and non-printable characters in the model's error message are kept as they are, where `%q` writes them as escapes such as `\n` or `\x00`. Quotes and backslashes are escaped as Go does.
- `%v` of a decoded JSON value sorts map keys as Go does (`Text.SortByKey`). Numbers are integers (`Values.Num`), so the float formatting of large or fractional numbers (`1e+21`, `0.5`) is not modelled.
- Go map iteration order is not modelled. Where it could matter, the model either proves that it does not (`RemoteAgent.UpdateOrderIrrelevant`) or chooses the next key arbitrarily (`AgentLoader.MultiAgentLoader.ListAgents`, `RestSession.CopyState`).
- The regular expression engine is not modelled. `replacePronouns`' whole-word, case-insensitive match is written out directly, with ASCII word characters and ASCII case folding only.
- The graph library is values in a sequence, indexed by graph. Its errors, which the generator only wraps, are left out, as are the DOT text that `graph.String()` renders and the unused directed flag of cluster graphs. The `namedInstance` and `agentinternal.Agent` checks are left out too, since every instance here is an agent or a tool.
- HTTP plumbing is left out: the handlers, the routers, `cmd/web/server.go`, and the path-variable decoding beyond the three string parameters.
- `server/restapi/models/runtime.go` is not part of this model. It depends on a reflection-based zero-value check and on Go's random map order.
- Integer widths are not modelled: `int64` times and `Timestamp.Unix()` overflow.
- `Session.Event` and `Session.LLMResponse` hold only the fields the bridge and the REST layer read or write. Any other fields of Go's `session.Event` and `model.LLMResponse`, whose definitions are not part of this model, are left out. `RestEvent.SessionRoundTrip`'s statement that the round trip is exact just when nothing is dropped holds for this reduced record only.
- Nil and empty slices and maps are one value in the REST event record (`LongRunningToolIDs`, `StateDelta`); only the session record's nil `Events` and `State` are distinguished.
- The older executor's own event processor (`adka2a/processor.go`) is not part of this model. The server package's processor stands in for it. `WithRunConfig(nil)` is not modelled either: an option always carries a configuration.
- In `toMissingRemoteSessionParts` the forward loop calls its body as the function `Contributions(ctx)`, which the method `RemoteHistory.Contribute` is proved to compute, instead of calling that method; the loop body and the loop are therefore two pieces of the model.
- The exact `WriteError` and `CreateError` texts of the stand-in services are left out; only their presence is modelled.
- AgentLoader.MultiAgentLoader.LoadAgent: the error is stated only up to its fixed prefix. The list of names that follows depends on the unspecified map order.
- Events.EventToMessage: requires a present event to have content, because the source dereferences `event.Content` without a check.
- Events.SessionEventOf: requires an invocation context for a final status update, which the source dereferences without a check.
- Events.ToSessionEvent: requires an invocation context for a final status update too, for the same reason.
- Values.Marshal: the JSON text keeps the fields in their order and writes strings between quotes without escaping, where `json.Marshal` sorts map keys and escapes strings. The text of opaque data parts and of the request and response payloads differs from Go's accordingly.
- PartsLaws.DecodeFailures: the base64 error is the fixed text of Go's corrupt-input error without the input byte offset it appends (`Base64.CorruptInput`), because the offsets depend on decoder internals that are not modelled. `Base64.Decode` likewise reports no offset.
- Wire.NewArtifactEvent: the `a2a` library is not part of this model. Its two artifact-event constructors are taken to leave `Append` unset (`NewArtifactEvent`) and to set it (`NewArtifactUpdateEvent`, `Wire.NewArtifactUpdate`); `ProcessorLaws.ArtifactChunk` and the plan lemmas rest on those values.
- The remote agent (`agent/remoteagent/a2a_agent.go:27`) imports the older `adka2a` package. Its `ToSessionEvent`, `EventToMessage`, `NewRemoteAgentEvent` and `ToADKMetaKey` (used at lines 100, 112, 160, 176, 179, 197 and 199) live in `adka2a/events.go`, which is not part of this model; the server package's `Events` module stands in for them.

## Findings

| source | as written | input that shows it | evidently intended | confidence | as-written member | corrected member |
|---|---|---|---|---|---|---|
| server/adka2a/events.go:88-95 | the non-final status branch sets custom metadata on the event before checking the error, and reads `event.Content.Parts` without a nil check | a Working update whose message holds a part of an unknown kind (the event is nil), or a message with no parts (the content is nil) | a translation error is returned as an error, and a message without parts gives no event | not executed | Events.InterimStatusToEventAsWritten, Events.InterimStatusNilDereference | Events.InterimStatusToEvent |
| agent/remoteagent/a2a_agent.go:149-150 | the file branch unmarshals into a nil `*a2a.AgentCard`, which `json.Unmarshal` always refuses | an agent card source `card.json` whose file holds `{}` | the file's JSON is decoded into a card and returned | not executed | RemoteAgent.ResolveAgentCardAsWritten, RemoteAgent.FileCardNeverLoadsAsWritten, RemoteAgent.FileCardCounterexample, RemoteAgent.RunSetupOutcomes | RemoteAgent.ResolveAgentCard, RemoteAgent.FileCardLoads, RemoteAgent.CorrectedRunAgrees |
