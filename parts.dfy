/** The part codec between local content parts (`genai.Part`) and wire parts
    (adka2a/parts.go). Encoding picks one wire kind per local part by a fixed
    precedence; decoding restores the local part and falls back to text for structured
    data it does not recognise. Both directions work on whole lists, index by index, and
    the first failing part fails the list. */
module Parts {
  import opened Wrappers
  import opened Values
  import Base64
  import GenAI
  import Wire
  import LegacyMetadata

  const ThoughtKey := LegacyMetadata.ToMetaKey("thought")
  const TypeKey := LegacyMetadata.ToMetaKey("type")
  const LongRunningKey := LegacyMetadata.ToMetaKey("is_long_running")
  const VideoMetadataKey := "video_metadata"

  const TypeFunctionCall := "function_call"
  const TypeFunctionResponse := "function_response"
  const TypeCodeExecResult := "code_execution_result"
  const TypeExecutableCode := "executable_code"

  const NotAFilePartError := "not a file part"
  /** What `%T` prints for the nil content of a file part. */
  const UnknownFileContentError := "unknown file content type: <nil>"
  const UnknownPartTypeError := "unknown part type: "

  // ---- local to wire ----

  /** `toA2AFilePart`: a file reference wins over inline bytes; inline bytes are written in
      standard base64 and carry the video metadata, if any, under `video_metadata`. */
  function A2AFilePart(p: GenAI.Part): (r: Result<Wire.Part>)
    ensures r.Err? <==> p.fileData.None? &&
                        (p.inlineData.None? || (p.videoMetadata.Some? && !EncodableFields(p.videoMetadata.value)))
    ensures r.Ok? ==> r.value.FilePart? && !r.value.file.NoFile?
  {
    if p.fileData.None? && p.inlineData.None? then Err(NotAFilePartError)
    else if p.fileData.Some? then
      var fd := p.fileData.value;
      Ok(Wire.FilePart(Wire.FileURI(fd.displayName, fd.mimeType, fd.fileURI), map[]))
    else
      var blob := p.inlineData.value;
      var file := Wire.FileBytes(blob.displayName, blob.mimeType, Base64.Encode(blob.data));
      match p.videoMetadata
      case None => Ok(Wire.FilePart(file, map[]))
      case Some(vm) =>
        var data :- ToMapStructure(Obj(vm));
        Ok(Wire.FilePart(file, map[VideoMetadataKey := Obj(data)]))
  }

  /** `toA2ADataPart`: a code execution result, then a function response, then executable
      code, then a function call; each becomes its JSON object form tagged with its type.
      A part holding none of them becomes an empty data part without metadata. */
  function A2ADataPart(p: GenAI.Part, longRunningToolIDs: seq<string>): (r: Result<Wire.Part>)
    ensures r.Err? <==> p.codeExecutionResult.None? &&
                        ((p.functionResponse.Some? && !GenAI.EncodableResponse(p.functionResponse.value)) ||
                         (p.functionResponse.None? && p.executableCode.None? &&
                          p.functionCall.Some? && !GenAI.EncodableCall(p.functionCall.value)))
    ensures r.Ok? ==> r.value.DataPart?
  {
    if p.codeExecutionResult.Some? then
      var cr := p.codeExecutionResult.value;
      GenAI.CodeExecutionResultFieldsEncodable(cr);
      match ToMapStructure(Obj(GenAI.CodeExecutionResultFields(cr)))
      case Err(e) => Err(e)
      case Ok(data) => Ok(Wire.DataPart(data, map[TypeKey := Str(TypeCodeExecResult)]))
    else if p.functionResponse.Some? then
      var fr := p.functionResponse.value;
      GenAI.FunctionResponseFieldsEncodable(fr);
      var data :- ToMapStructure(Obj(GenAI.FunctionResponseFields(fr)));
      Ok(Wire.DataPart(data, map[TypeKey := Str(TypeFunctionResponse)]))
    else if p.executableCode.Some? then
      var ec := p.executableCode.value;
      GenAI.ExecutableCodeFieldsEncodable(ec);
      match ToMapStructure(Obj(GenAI.ExecutableCodeFields(ec)))
      case Err(e) => Err(e)
      case Ok(data) => Ok(Wire.DataPart(data, map[TypeKey := Str(TypeExecutableCode)]))
    else if p.functionCall.Some? then
      var fc := p.functionCall.value;
      GenAI.FunctionCallFieldsEncodable(fc);
      var data :- ToMapStructure(Obj(GenAI.FunctionCallFields(fc)));
      Ok(Wire.DataPart(data, map[TypeKey := Str(TypeFunctionCall),
                                 LongRunningKey := Bool(fc.id in longRunningToolIDs)]))
    else
      Ok(Wire.DataPart([], map[]))
  }

  /** The translation of one local part, as the loop of `toA2AParts` performs it: non-empty
      text first, then file content, then structured data. */
  function A2APart(p: GenAI.Part, longRunningToolIDs: seq<string>): (r: Result<Wire.Part>)
    ensures p.text != "" ==> r.Ok? && r.value.TextPart? && r.value.text == p.text
    ensures p.text == "" && (p.inlineData.Some? || p.fileData.Some?) ==> r == A2AFilePart(p)
    ensures p.text == "" && p.inlineData.None? && p.fileData.None? ==> r == A2ADataPart(p, longRunningToolIDs)
  {
    if p.text != "" then
      Ok(Wire.TextPart(p.text, if p.thought then map[ThoughtKey := Bool(true)] else map[]))
    else if p.inlineData.Some? || p.fileData.Some? then
      A2AFilePart(p)
    else
      A2ADataPart(p, longRunningToolIDs)
  }

  function EncodeFn(longRunningToolIDs: seq<string>): GenAI.Part -> Result<Wire.Part> {
    p => A2APart(p, longRunningToolIDs)
  }

  /** The outcome of `toA2AParts`. */
  function EncodeParts(ps: seq<GenAI.Part>, longRunningToolIDs: seq<string>): Result<seq<Wire.Part>> {
    MapResult(EncodeFn(longRunningToolIDs), ps)
  }

  /** `toA2AParts`: a result slot per input part, filled in order. */
  method ToA2AParts(ps: seq<GenAI.Part>, longRunningToolIDs: seq<string>) returns (r: Result<seq<Wire.Part>>)
    ensures r == EncodeParts(ps, longRunningToolIDs)
  {
    var result := new Wire.Part[|ps|];
    for i := 0 to |ps|
      invariant forall j | 0 <= j < i :: EncodeFn(longRunningToolIDs)(ps[j]) == Ok(result[j])
    {
      var part := ps[i];
      if part.text != "" {
        var meta: Meta := map[];
        if part.thought {
          meta := map[ThoughtKey := Bool(true)];
        }
        result[i] := Wire.TextPart(part.text, meta);
      } else if part.inlineData.Some? || part.fileData.Some? {
        var res := A2AFilePart(part);
        if res.Err? {
          MapResultFirstErr(EncodeFn(longRunningToolIDs), ps, i);
          return Err(res.error);
        }
        result[i] := res.value;
      } else {
        var res := A2ADataPart(part, longRunningToolIDs);
        if res.Err? {
          MapResultFirstErr(EncodeFn(longRunningToolIDs), ps, i);
          return Err(res.error);
        }
        result[i] := res.value;
      }
    }
    MapResultAllOk(EncodeFn(longRunningToolIDs), ps, result[..]);
    return Ok(result[..]);
  }

  // ---- wire to local ----

  /** `toGenAIFilePart`: inline bytes are decoded from standard base64; a file with no
      content is an error. The part's metadata is not read. */
  function GenAIFilePart(file: Wire.FileContent): (r: Result<GenAI.Part>)
    ensures r.Err? <==> file.NoFile? || (file.FileBytes? && Base64.Decode(file.bytes).Err?)
  {
    match file
    case FileBytes(name, mimeType, bytes) =>
      var data :- Base64.Decode(bytes);
      Ok(GenAI.InlineDataPart(GenAI.Blob(data, mimeType, name)))
    case FileURI(name, mimeType, uri) =>
      Ok(GenAI.FileDataPart(GenAI.FileData(uri, mimeType, name)))
    case NoFile => Err(UnknownFileContentError)
  }

  /** `toGenAITextPart`: the data's JSON text as a text part. */
  function GenAITextPart(data: Fields): (r: Result<GenAI.Part>)
    ensures r.Ok? <==> EncodableFields(data)
    ensures r.Ok? ==> r.value == GenAI.TextPart(Render(Obj(data)))
  {
    var text :- Marshal(Obj(data));
    Ok(GenAI.TextPart(text))
  }

  /** True when `t`, the value under the type key, names one of the four record kinds;
      only a string value can (a Go switch on `any` against string constants). */
  predicate KnownType(t: Value) {
    t in {Str(TypeCodeExecResult), Str(TypeFunctionCall), Str(TypeExecutableCode), Str(TypeFunctionResponse)}
  }

  /** `toGenAIDataPart`: the type key selects the record to decode the data into; without
      it, or with a type it does not know, the data becomes its JSON text. */
  function GenAIDataPart(data: Fields, meta: Meta): (r: Result<GenAI.Part>)
    ensures !EncodableFields(data) ==> r.Err?
    ensures (TypeKey !in meta || !KnownType(meta[TypeKey])) ==> r == GenAITextPart(data)
  {
    if TypeKey !in meta then GenAITextPart(data)
    else
      var text :- Marshal(Obj(data));
      var t := meta[TypeKey];
      if t == Str(TypeCodeExecResult) then
        var v :- GenAI.DecodeCodeExecutionResult(data);
        Ok(GenAI.CodeExecutionResultPart(v))
      else if t == Str(TypeFunctionCall) then
        var v :- GenAI.DecodeFunctionCall(data);
        Ok(GenAI.FunctionCallPart(v))
      else if t == Str(TypeExecutableCode) then
        var v :- GenAI.DecodeExecutableCode(data);
        Ok(GenAI.ExecutableCodePart(v))
      else if t == Str(TypeFunctionResponse) then
        var v :- GenAI.DecodeFunctionResponse(data);
        Ok(GenAI.FunctionResponsePart(v))
      else
        Ok(GenAI.TextPart(text))
  }

  /** The decoded thought flag of a text part: the boolean under the thought key, false
      when the key is absent or holds anything else. */
  function ThoughtOf(meta: Meta): bool {
    ThoughtKey in meta && meta[ThoughtKey].Bool? && meta[ThoughtKey].b
  }

  /** The translation of one wire part, as the type switch of `toGenAIParts` performs it. */
  function GenAIPart(w: Wire.Part): (r: Result<GenAI.Part>)
    ensures w.OtherPart? ==> r.Err?
    ensures w.TextPart? ==> r == Ok(GenAI.TextPart(w.text).(thought := ThoughtOf(w.metadata)))
    ensures w.FilePart? ==> r == GenAIFilePart(w.file)
    ensures w.DataPart? ==> r == GenAIDataPart(w.data, w.metadata)
  {
    match w
    case TextPart(text, meta) =>
      var p := GenAI.TextPart(text);
      Ok(if ThoughtKey in meta && meta[ThoughtKey].Bool? then p.(thought := meta[ThoughtKey].b) else p)
    case DataPart(data, meta) => GenAIDataPart(data, meta)
    case FilePart(file, _) => GenAIFilePart(file)
    case OtherPart(name) => Err(UnknownPartTypeError + name)
  }

  function DecodeFn(): Wire.Part -> Result<GenAI.Part> {
    w => GenAIPart(w)
  }

  /** The outcome of `toGenAIParts`. */
  function DecodeParts(ws: seq<Wire.Part>): Result<seq<GenAI.Part>> {
    MapResult(DecodeFn(), ws)
  }

  /** `toGenAIParts`: a result slot per wire part, filled in order. */
  method ToGenAIParts(ws: seq<Wire.Part>) returns (r: Result<seq<GenAI.Part>>)
    ensures r == DecodeParts(ws)
  {
    var result := new GenAI.Part[|ws|];
    for i := 0 to |ws|
      invariant forall j | 0 <= j < i :: DecodeFn()(ws[j]) == Ok(result[j])
    {
      match ws[i]
      case TextPart(text, meta) =>
        var p := GenAI.TextPart(text);
        if ThoughtKey in meta && meta[ThoughtKey].Bool? {
          p := p.(thought := meta[ThoughtKey].b);
        }
        result[i] := p;
      case DataPart(data, meta) =>
        var res := GenAIDataPart(data, meta);
        if res.Err? {
          MapResultFirstErr(DecodeFn(), ws, i);
          return Err(res.error);
        }
        result[i] := res.value;
      case FilePart(file, _) =>
        var res := GenAIFilePart(file);
        if res.Err? {
          MapResultFirstErr(DecodeFn(), ws, i);
          return Err(res.error);
        }
        result[i] := res.value;
      case OtherPart(name) =>
        MapResultFirstErr(DecodeFn(), ws, i);
        return Err(UnknownPartTypeError + name);
    }
    MapResultAllOk(DecodeFn(), ws, result[..]);
    return Ok(result[..]);
  }

  /** The outcome of `toGenAIContent`. */
  function GenAIContent(msg: Wire.Message): (r: Result<GenAI.Content>)
    ensures r.Ok? <==> DecodeParts(msg.parts).Ok?
    ensures r.Ok? ==> r.value.role == GenAI.RoleUser && r.value.parts == DecodeParts(msg.parts).value
  {
    var parts :- DecodeParts(msg.parts);
    Ok(GenAI.Content(GenAI.RoleUser, parts))
  }

  /** `toGenAIContent`: the message's parts under the user role. */
  method ToGenAIContent(msg: Wire.Message) returns (r: Result<GenAI.Content>)
    ensures r == GenAIContent(msg)
  {
    var parts := ToGenAIParts(msg.parts);
    if parts.Err? {
      return Err(parts.error);
    }
    return Ok(GenAI.Content(GenAI.RoleUser, parts.value));
  }
}
