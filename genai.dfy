/** The local content model (`genai.Part`, `genai.Content` and the records a part can
    hold), with the JSON object form each record takes under `encoding/json` and the
    typed decoding `json.Unmarshal` performs back from such an object. */
module GenAI {
  import opened Wrappers
  import opened Values
  import Base64

  const RoleUser := "user"
  const RoleModel := "model"

  datatype Blob = Blob(data: Base64.Bytes, mimeType: string, displayName: string)

  datatype FileData = FileData(fileURI: string, mimeType: string, displayName: string)

  /** A tool call requested by the model. Nil and empty `args` are not told apart. */
  datatype FunctionCall = FunctionCall(id: string, args: Fields, name: string)

  datatype FunctionResponse =
    FunctionResponse(scheduling: string, id: string, name: string, response: Fields)

  datatype ExecutableCode = ExecutableCode(code: string, language: string)

  datatype CodeExecutionResult = CodeExecutionResult(outcome: string, output: string)

  /** `genai.Part`: a record of optional fields, any number of which may be set. */
  datatype Part = Part(
    text: string,
    thought: bool,
    inlineData: Option<Blob>,
    fileData: Option<FileData>,
    functionCall: Option<FunctionCall>,
    functionResponse: Option<FunctionResponse>,
    executableCode: Option<ExecutableCode>,
    codeExecutionResult: Option<CodeExecutionResult>,
    videoMetadata: Option<Fields>)

  /** `genai.Content`. */
  datatype Content = Content(role: string, parts: seq<Part>)

  const EmptyPart := Part("", false, None, None, None, None, None, None, None)

  /** `genai.NewPartFromText`. */
  function TextPart(text: string): (p: Part)
    ensures p.text == text && p == EmptyPart.(text := text)
  {
    EmptyPart.(text := text)
  }

  function InlineDataPart(blob: Blob): Part {
    EmptyPart.(inlineData := Some(blob))
  }

  function FileDataPart(fd: FileData): Part {
    EmptyPart.(fileData := Some(fd))
  }

  function FunctionCallPart(fc: FunctionCall): Part {
    EmptyPart.(functionCall := Some(fc))
  }

  function FunctionResponsePart(fr: FunctionResponse): Part {
    EmptyPart.(functionResponse := Some(fr))
  }

  function ExecutableCodePart(ec: ExecutableCode): Part {
    EmptyPart.(executableCode := Some(ec))
  }

  function CodeExecutionResultPart(cr: CodeExecutionResult): Part {
    EmptyPart.(codeExecutionResult := Some(cr))
  }

  // ---- JSON object form of the records (struct tags with `omitempty`) ----

  function StrField(key: string, s: string): Fields {
    if s == "" then [] else [Field(key, Str(s))]
  }

  function ObjField(key: string, fs: Fields): Fields {
    if fs == [] then [] else [Field(key, Obj(fs))]
  }

  function FunctionCallFields(fc: FunctionCall): Fields {
    StrField("id", fc.id) + ObjField("args", fc.args) + StrField("name", fc.name)
  }

  function FunctionResponseFields(fr: FunctionResponse): Fields {
    StrField("scheduling", fr.scheduling) + StrField("id", fr.id) + StrField("name", fr.name)
      + ObjField("response", fr.response)
  }

  function ExecutableCodeFields(ec: ExecutableCode): Fields {
    StrField("code", ec.code) + StrField("language", ec.language)
  }

  function CodeExecutionResultFields(cr: CodeExecutionResult): Fields {
    StrField("outcome", cr.outcome) + StrField("output", cr.output)
  }

  // ---- json.Unmarshal of an object into the records ----

  /** A string struct field: absent or `null` leaves the zero value, a non-string is a
      type error. */
  function DecodeStr(fs: Fields, key: string): (r: Result<string>)
    ensures r.Ok? <==> (Lookup(fs, key).None? || Lookup(fs, key).value.Null? || Lookup(fs, key).value.Str?)
  {
    match Lookup(fs, key)
    case None => Ok("")
    case Some(Null) => Ok("")
    case Some(Str(s)) => Ok(s)
    case Some(_) => Err("json: cannot unmarshal into Go struct field " + key + " of type string")
  }

  /** A `map[string]any` struct field. */
  function DecodeObj(fs: Fields, key: string): (r: Result<Fields>)
    ensures r.Ok? <==> (Lookup(fs, key).None? || Lookup(fs, key).value.Null? || Lookup(fs, key).value.Obj?)
  {
    match Lookup(fs, key)
    case None => Ok([])
    case Some(Null) => Ok([])
    case Some(Obj(o)) => Ok(o)
    case Some(_) => Err("json: cannot unmarshal into Go struct field " + key + " of type map[string]interface {}")
  }

  function DecodeFunctionCall(fs: Fields): Result<FunctionCall> {
    var id :- DecodeStr(fs, "id");
    var args :- DecodeObj(fs, "args");
    var name :- DecodeStr(fs, "name");
    Ok(FunctionCall(id, args, name))
  }

  function DecodeFunctionResponse(fs: Fields): Result<FunctionResponse> {
    var scheduling :- DecodeStr(fs, "scheduling");
    var id :- DecodeStr(fs, "id");
    var name :- DecodeStr(fs, "name");
    var response :- DecodeObj(fs, "response");
    Ok(FunctionResponse(scheduling, id, name, response))
  }

  function DecodeExecutableCode(fs: Fields): Result<ExecutableCode> {
    var code :- DecodeStr(fs, "code");
    var language :- DecodeStr(fs, "language");
    Ok(ExecutableCode(code, language))
  }

  function DecodeCodeExecutionResult(fs: Fields): Result<CodeExecutionResult> {
    var outcome :- DecodeStr(fs, "outcome");
    var output :- DecodeStr(fs, "output");
    Ok(CodeExecutionResult(outcome, output))
  }

  // ---- the record round trips ----

  lemma LookupAppend(a: Fields, b: Fields, k: string)
    ensures Lookup(a + b, k) == if Lookup(a, k).Some? then Lookup(a, k) else Lookup(b, k)
  {
    if a != [] {
      assert (a + b)[1..] == a[1..] + b;
      LookupAppend(a[1..], b, k);
    } else {
      assert a + b == b;
    }
  }

  lemma LookupStr(key: string, s: string, k: string)
    ensures Lookup(StrField(key, s), k) == if s != "" && k == key then Some(Str(s)) else None
  {
  }

  lemma LookupObj(key: string, fs: Fields, k: string)
    ensures Lookup(ObjField(key, fs), k) == if fs != [] && k == key then Some(Obj(fs)) else None
  {
  }

  /** The JSON object form of a call decodes back to the call. */
  lemma FunctionCallRoundTrip(fc: FunctionCall)
    ensures DecodeFunctionCall(FunctionCallFields(fc)) == Ok(fc)
  {
    var fs := FunctionCallFields(fc);
    FunctionCallLookup(fc, "id");
    assert DecodeStr(fs, "id") == Ok(fc.id);
    FunctionCallLookup(fc, "args");
    assert DecodeObj(fs, "args") == Ok(fc.args);
    FunctionCallLookup(fc, "name");
    assert DecodeStr(fs, "name") == Ok(fc.name);
  }

  lemma FunctionCallLookup(fc: FunctionCall, k: string)
    ensures Lookup(FunctionCallFields(fc), k) ==
            if k == "id" && fc.id != "" then Some(Str(fc.id))
            else if k == "args" && fc.args != [] then Some(Obj(fc.args))
            else if k == "name" && fc.name != "" then Some(Str(fc.name))
            else None
  {
    var a, b, c := StrField("id", fc.id), ObjField("args", fc.args), StrField("name", fc.name);
    LookupAppend(a + b, c, k);
    LookupAppend(a, b, k);
    LookupStr("id", fc.id, k);
    LookupObj("args", fc.args, k);
    LookupStr("name", fc.name, k);
  }

  lemma FunctionResponseLookup(fr: FunctionResponse, k: string)
    ensures Lookup(FunctionResponseFields(fr), k) ==
            if k == "scheduling" && fr.scheduling != "" then Some(Str(fr.scheduling))
            else if k == "id" && fr.id != "" then Some(Str(fr.id))
            else if k == "name" && fr.name != "" then Some(Str(fr.name))
            else if k == "response" && fr.response != [] then Some(Obj(fr.response))
            else None
  {
    var a, b, c, d := StrField("scheduling", fr.scheduling), StrField("id", fr.id),
                      StrField("name", fr.name), ObjField("response", fr.response);
    LookupAppend(a + b + c, d, k);
    LookupAppend(a + b, c, k);
    LookupAppend(a, b, k);
    LookupStr("scheduling", fr.scheduling, k);
    LookupStr("id", fr.id, k);
    LookupStr("name", fr.name, k);
    LookupObj("response", fr.response, k);
  }

  lemma FunctionResponseRoundTrip(fr: FunctionResponse)
    ensures DecodeFunctionResponse(FunctionResponseFields(fr)) == Ok(fr)
  {
    var fs := FunctionResponseFields(fr);
    FunctionResponseLookup(fr, "scheduling");
    assert DecodeStr(fs, "scheduling") == Ok(fr.scheduling);
    FunctionResponseLookup(fr, "id");
    assert DecodeStr(fs, "id") == Ok(fr.id);
    FunctionResponseLookup(fr, "name");
    assert DecodeStr(fs, "name") == Ok(fr.name);
    FunctionResponseLookup(fr, "response");
    assert DecodeObj(fs, "response") == Ok(fr.response);
  }

  lemma ExecutableCodeRoundTrip(ec: ExecutableCode)
    ensures DecodeExecutableCode(ExecutableCodeFields(ec)) == Ok(ec)
  {
    var a, b := StrField("code", ec.code), StrField("language", ec.language);
    LookupAppend(a, b, "code");
    LookupStr("code", ec.code, "code");
    LookupStr("language", ec.language, "code");
    LookupAppend(a, b, "language");
    LookupStr("code", ec.code, "language");
    LookupStr("language", ec.language, "language");
  }

  lemma CodeExecutionResultRoundTrip(cr: CodeExecutionResult)
    ensures DecodeCodeExecutionResult(CodeExecutionResultFields(cr)) == Ok(cr)
  {
    var a, b := StrField("outcome", cr.outcome), StrField("output", cr.output);
    LookupAppend(a, b, "outcome");
    LookupStr("outcome", cr.outcome, "outcome");
    LookupStr("output", cr.output, "outcome");
    LookupAppend(a, b, "output");
    LookupStr("outcome", cr.outcome, "output");
    LookupStr("output", cr.output, "output");
  }

  /** The object form of a record is encodable exactly when its nested maps are. */
  predicate EncodableCall(fc: FunctionCall) {
    EncodableFields(fc.args)
  }

  predicate EncodableResponse(fr: FunctionResponse) {
    EncodableFields(fr.response)
  }

  /** The object form of a record is encodable exactly when its nested maps are; a record
      made only of strings always is. */
  lemma FunctionCallFieldsEncodable(fc: FunctionCall)
    ensures EncodableFields(FunctionCallFields(fc)) <==> EncodableCall(fc)
  {
    var a, b, c := StrField("id", fc.id), ObjField("args", fc.args), StrField("name", fc.name);
    EncodableFieldsAppend(a + b, c);
    EncodableFieldsAppend(a, b);
  }

  lemma FunctionResponseFieldsEncodable(fr: FunctionResponse)
    ensures EncodableFields(FunctionResponseFields(fr)) <==> EncodableResponse(fr)
  {
    var a, b, c, d := StrField("scheduling", fr.scheduling), StrField("id", fr.id),
                      StrField("name", fr.name), ObjField("response", fr.response);
    EncodableFieldsAppend(a + b + c, d);
    EncodableFieldsAppend(a + b, c);
    EncodableFieldsAppend(a, b);
  }

  lemma ExecutableCodeFieldsEncodable(ec: ExecutableCode)
    ensures EncodableFields(ExecutableCodeFields(ec))
  {
    EncodableFieldsAppend(StrField("code", ec.code), StrField("language", ec.language));
  }

  lemma CodeExecutionResultFieldsEncodable(cr: CodeExecutionResult)
    ensures EncodableFields(CodeExecutionResultFields(cr))
  {
    EncodableFieldsAppend(StrField("outcome", cr.outcome), StrField("output", cr.output));
  }
}
