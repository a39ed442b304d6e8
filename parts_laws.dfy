/** What the part codec promises: index alignment of both list translations, the
    encoder's precedence, the two flags carried in metadata, the round trips of each
    part kind, the text fallback for opaque data and the failure cases. */
module PartsLaws {
  import opened Wrappers
  import opened Values
  import Base64
  import GenAI
  import Wire
  import opened Parts

  // ---- alignment ----

  /** `toA2AParts` succeeds exactly when every part translates; its output then has one
      wire part per local part, translated from the part at the same index; a failure is
      the failure of the first part that does not translate. */
  lemma EncodePartsAligned(ps: seq<GenAI.Part>, ids: seq<string>)
    ensures EncodeParts(ps, ids).Ok? <==> forall i | 0 <= i < |ps| :: A2APart(ps[i], ids).Ok?
    ensures EncodeParts(ps, ids).Ok? ==>
              |EncodeParts(ps, ids).value| == |ps| &&
              forall i | 0 <= i < |ps| :: EncodeParts(ps, ids).value[i] == A2APart(ps[i], ids).value
    ensures EncodeParts(ps, ids).Err? ==>
              exists k | 0 <= k < |ps| :: A2APart(ps[k], ids).Err? &&
                                          EncodeParts(ps, ids).error == A2APart(ps[k], ids).error &&
                                          forall i | 0 <= i < k :: A2APart(ps[i], ids).Ok?
  {
    MapResultAt(EncodeFn(ids), ps);
  }

  /** The same for `toGenAIParts`. */
  lemma DecodePartsAligned(ws: seq<Wire.Part>)
    ensures DecodeParts(ws).Ok? <==> forall i | 0 <= i < |ws| :: GenAIPart(ws[i]).Ok?
    ensures DecodeParts(ws).Ok? ==>
              |DecodeParts(ws).value| == |ws| &&
              forall i | 0 <= i < |ws| :: DecodeParts(ws).value[i] == GenAIPart(ws[i]).value
    ensures DecodeParts(ws).Err? ==>
              exists k | 0 <= k < |ws| :: GenAIPart(ws[k]).Err? &&
                                          DecodeParts(ws).error == GenAIPart(ws[k]).error &&
                                          forall i | 0 <= i < k :: GenAIPart(ws[i]).Ok?
  {
    MapResultAt(DecodeFn(), ws);
  }

  // ---- precedence ----

  /** Non-empty text wins: every other field of the part is ignored. */
  lemma TextWins(p: GenAI.Part, ids: seq<string>)
    requires p.text != ""
    ensures A2APart(p, ids) == A2APart(GenAI.TextPart(p.text).(thought := p.thought), ids)
  {
  }

  /** Without text, file content wins over structured data, and a file reference wins
      over inline bytes (whose video metadata is then ignored too). */
  lemma FileWins(p: GenAI.Part, ids: seq<string>)
    requires p.text == "" && (p.fileData.Some? || p.inlineData.Some?)
    ensures A2APart(p, ids) ==
            A2APart(GenAI.EmptyPart.(inlineData := p.inlineData, fileData := p.fileData,
                                     videoMetadata := p.videoMetadata), ids)
    ensures p.fileData.Some? ==> A2APart(p, ids) == A2APart(GenAI.FileDataPart(p.fileData.value), ids)
  {
  }

  /** Among structured data: a code execution result, then a function response, then
      executable code, then a function call; the lower ones are ignored. */
  lemma DataPrecedence(p: GenAI.Part, ids: seq<string>)
    requires p.text == "" && p.fileData.None? && p.inlineData.None?
    ensures p.codeExecutionResult.Some? ==>
              A2APart(p, ids) == A2APart(GenAI.CodeExecutionResultPart(p.codeExecutionResult.value), ids)
    ensures p.codeExecutionResult.None? && p.functionResponse.Some? ==>
              A2APart(p, ids) == A2APart(GenAI.FunctionResponsePart(p.functionResponse.value), ids)
    ensures p.codeExecutionResult.None? && p.functionResponse.None? && p.executableCode.Some? ==>
              A2APart(p, ids) == A2APart(GenAI.ExecutableCodePart(p.executableCode.value), ids)
    ensures p.codeExecutionResult.None? && p.functionResponse.None? && p.executableCode.None? &&
            p.functionCall.Some? ==>
              A2APart(p, ids) == A2APart(GenAI.FunctionCallPart(p.functionCall.value), ids)
  {
  }

  // ---- flags ----

  /** A text part carries the thought key exactly when the local part is a thought, and
      decoding restores the flag. */
  lemma ThoughtFlag(p: GenAI.Part, ids: seq<string>)
    requires p.text != ""
    ensures ThoughtKey in A2APart(p, ids).value.metadata <==> p.thought
    ensures p.thought ==> A2APart(p, ids).value.metadata == map[ThoughtKey := Bool(true)]
    ensures GenAIPart(A2APart(p, ids).value).Ok?
    ensures GenAIPart(A2APart(p, ids).value).value.thought == p.thought
  {
  }

  /** The type key, the thought key and the long-running key are three distinct keys. */
  lemma PartKeysDistinct()
    ensures TypeKey != LongRunningKey && TypeKey != ThoughtKey && ThoughtKey != LongRunningKey
  {
    assert TypeKey[4] != LongRunningKey[4] && TypeKey[5] != ThoughtKey[5] && ThoughtKey[4] != LongRunningKey[4];
  }

  /** A function call's data part records whether the call's ID is among the long-running
      tool IDs. */
  lemma LongRunningFlag(fc: GenAI.FunctionCall, ids: seq<string>)
    requires GenAI.EncodableCall(fc)
    ensures A2APart(GenAI.FunctionCallPart(fc), ids).Ok?
    ensures LongRunningKey in A2APart(GenAI.FunctionCallPart(fc), ids).value.metadata
    ensures A2APart(GenAI.FunctionCallPart(fc), ids).value.metadata[LongRunningKey] == Bool(fc.id in ids)
    ensures A2APart(GenAI.FunctionCallPart(fc), ids).value.metadata[TypeKey] == Str(TypeFunctionCall)
  {
    PartKeysDistinct();
    GenAI.FunctionCallFieldsEncodable(fc);
  }

  // ---- round trips, one kind at a time ----

  lemma TextRoundTrip(text: string, thought: bool, ids: seq<string>)
    requires text != ""
    ensures A2APart(GenAI.TextPart(text).(thought := thought), ids).Ok?
    ensures GenAIPart(A2APart(GenAI.TextPart(text).(thought := thought), ids).value) ==
            Ok(GenAI.TextPart(text).(thought := thought))
  {
  }

  lemma FileURIRoundTrip(fd: GenAI.FileData, ids: seq<string>)
    ensures A2APart(GenAI.FileDataPart(fd), ids) ==
            Ok(Wire.FilePart(Wire.FileURI(fd.displayName, fd.mimeType, fd.fileURI), map[]))
    ensures GenAIPart(A2APart(GenAI.FileDataPart(fd), ids).value) == Ok(GenAI.FileDataPart(fd))
  {
  }

  lemma FileBytesRoundTrip(blob: GenAI.Blob, ids: seq<string>)
    ensures A2APart(GenAI.InlineDataPart(blob), ids) ==
            Ok(Wire.FilePart(Wire.FileBytes(blob.displayName, blob.mimeType, Base64.Encode(blob.data)), map[]))
    ensures GenAIPart(A2APart(GenAI.InlineDataPart(blob), ids).value) == Ok(GenAI.InlineDataPart(blob))
  {
    Base64.DecodeEncode(blob.data);
  }

  /** Video metadata travels in the wire part's metadata but is not read back. */
  lemma VideoMetadataDropped(blob: GenAI.Blob, vm: Fields, ids: seq<string>)
    requires EncodableFields(vm)
    ensures A2APart(GenAI.InlineDataPart(blob).(videoMetadata := Some(vm)), ids) ==
            Ok(Wire.FilePart(Wire.FileBytes(blob.displayName, blob.mimeType, Base64.Encode(blob.data)),
                             map[VideoMetadataKey := Obj(vm)]))
    ensures GenAIPart(A2APart(GenAI.InlineDataPart(blob).(videoMetadata := Some(vm)), ids).value) ==
            Ok(GenAI.InlineDataPart(blob))
  {
    Base64.DecodeEncode(blob.data);
  }

  lemma FunctionCallPartRoundTrip(fc: GenAI.FunctionCall, ids: seq<string>)
    requires GenAI.EncodableCall(fc)
    ensures A2APart(GenAI.FunctionCallPart(fc), ids).Ok?
    ensures GenAIPart(A2APart(GenAI.FunctionCallPart(fc), ids).value) == Ok(GenAI.FunctionCallPart(fc))
  {
    var meta := map[TypeKey := Str(TypeFunctionCall), LongRunningKey := Bool(fc.id in ids)];
    FunctionCallEncoded(fc, ids);
    TypeNamesDistinct();
    GenAI.FunctionCallRoundTrip(fc);
    assert meta[TypeKey] == Str(TypeFunctionCall) by { PartKeysDistinct(); }
    assert GenAIDataPart(GenAI.FunctionCallFields(fc), meta) == Ok(GenAI.FunctionCallPart(fc));
  }

  lemma FunctionCallEncoded(fc: GenAI.FunctionCall, ids: seq<string>)
    requires GenAI.EncodableCall(fc)
    ensures A2APart(GenAI.FunctionCallPart(fc), ids) ==
            Ok(Wire.DataPart(GenAI.FunctionCallFields(fc),
                             map[TypeKey := Str(TypeFunctionCall), LongRunningKey := Bool(fc.id in ids)]))
  {
    GenAI.FunctionCallFieldsEncodable(fc);
  }

  lemma FunctionResponsePartRoundTrip(fr: GenAI.FunctionResponse, ids: seq<string>)
    requires GenAI.EncodableResponse(fr)
    ensures A2APart(GenAI.FunctionResponsePart(fr), ids).Ok?
    ensures GenAIPart(A2APart(GenAI.FunctionResponsePart(fr), ids).value) == Ok(GenAI.FunctionResponsePart(fr))
  {
    FunctionResponseEncoded(fr, ids);
    TypeNamesDistinct();
    GenAI.FunctionResponseRoundTrip(fr);
    assert GenAIDataPart(GenAI.FunctionResponseFields(fr), map[TypeKey := Str(TypeFunctionResponse)])
           == Ok(GenAI.FunctionResponsePart(fr));
  }

  lemma FunctionResponseEncoded(fr: GenAI.FunctionResponse, ids: seq<string>)
    requires GenAI.EncodableResponse(fr)
    ensures A2APart(GenAI.FunctionResponsePart(fr), ids) ==
            Ok(Wire.DataPart(GenAI.FunctionResponseFields(fr), map[TypeKey := Str(TypeFunctionResponse)]))
  {
    GenAI.FunctionResponseFieldsEncodable(fr);
  }

  /** The four type names of data parts are different strings. */
  lemma TypeNamesDistinct()
    ensures Str(TypeFunctionCall) != Str(TypeFunctionResponse)
    ensures Str(TypeCodeExecResult) != Str(TypeFunctionCall)
    ensures Str(TypeCodeExecResult) != Str(TypeExecutableCode)
    ensures Str(TypeCodeExecResult) != Str(TypeFunctionResponse)
    ensures Str(TypeExecutableCode) != Str(TypeFunctionCall)
    ensures Str(TypeExecutableCode) != Str(TypeFunctionResponse)
  {
    assert TypeFunctionCall[9] != TypeFunctionResponse[9];
    assert TypeCodeExecResult[0] != TypeFunctionCall[0] && TypeCodeExecResult[0] != TypeExecutableCode[0];
    assert TypeCodeExecResult[0] != TypeFunctionResponse[0];
    assert TypeExecutableCode[0] != TypeFunctionCall[0] && TypeExecutableCode[0] != TypeFunctionResponse[0];
  }

  lemma ExecutableCodePartRoundTrip(ec: GenAI.ExecutableCode, ids: seq<string>)
    ensures A2APart(GenAI.ExecutableCodePart(ec), ids).Ok?
    ensures GenAIPart(A2APart(GenAI.ExecutableCodePart(ec), ids).value) == Ok(GenAI.ExecutableCodePart(ec))
  {
    GenAI.ExecutableCodeFieldsEncodable(ec);
    GenAI.ExecutableCodeRoundTrip(ec);
  }

  lemma CodeExecutionResultPartRoundTrip(cr: GenAI.CodeExecutionResult, ids: seq<string>)
    ensures A2APart(GenAI.CodeExecutionResultPart(cr), ids).Ok?
    ensures GenAIPart(A2APart(GenAI.CodeExecutionResultPart(cr), ids).value) ==
            Ok(GenAI.CodeExecutionResultPart(cr))
  {
    GenAI.CodeExecutionResultFieldsEncodable(cr);
    GenAI.CodeExecutionResultRoundTrip(cr);
  }

  // ---- round trip of whole lists ----

  /** A local part holding exactly one kind of content, in a form the wire can carry. */
  predicate Canonical(p: GenAI.Part) {
    || (p.text != "" && p == GenAI.TextPart(p.text).(thought := p.thought))
    || (p.fileData.Some? && p == GenAI.FileDataPart(p.fileData.value))
    || (p.inlineData.Some? && p == GenAI.InlineDataPart(p.inlineData.value))
    || (p.functionCall.Some? && p == GenAI.FunctionCallPart(p.functionCall.value) &&
        GenAI.EncodableCall(p.functionCall.value))
    || (p.functionResponse.Some? && p == GenAI.FunctionResponsePart(p.functionResponse.value) &&
        GenAI.EncodableResponse(p.functionResponse.value))
    || (p.executableCode.Some? && p == GenAI.ExecutableCodePart(p.executableCode.value))
    || (p.codeExecutionResult.Some? && p == GenAI.CodeExecutionResultPart(p.codeExecutionResult.value))
  }

  lemma PartRoundTrip(p: GenAI.Part, ids: seq<string>)
    requires Canonical(p)
    ensures A2APart(p, ids).Ok? && GenAIPart(A2APart(p, ids).value) == Ok(p)
  {
    if p.text != "" && p == GenAI.TextPart(p.text).(thought := p.thought) {
      TextRoundTrip(p.text, p.thought, ids);
    } else if p.fileData.Some? && p == GenAI.FileDataPart(p.fileData.value) {
      FileURIRoundTrip(p.fileData.value, ids);
    } else if p.inlineData.Some? && p == GenAI.InlineDataPart(p.inlineData.value) {
      FileBytesRoundTrip(p.inlineData.value, ids);
    } else if p.functionCall.Some? && p == GenAI.FunctionCallPart(p.functionCall.value) &&
              GenAI.EncodableCall(p.functionCall.value) {
      FunctionCallPartRoundTrip(p.functionCall.value, ids);
    } else if p.functionResponse.Some? && p == GenAI.FunctionResponsePart(p.functionResponse.value) &&
              GenAI.EncodableResponse(p.functionResponse.value) {
      FunctionResponsePartRoundTrip(p.functionResponse.value, ids);
    } else if p.executableCode.Some? && p == GenAI.ExecutableCodePart(p.executableCode.value) {
      ExecutableCodePartRoundTrip(p.executableCode.value, ids);
    } else {
      CodeExecutionResultPartRoundTrip(p.codeExecutionResult.value, ids);
    }
  }

  /** `toGenAIParts(toA2AParts(ps))` gives back `ps` for a list of canonical parts. */
  lemma PartsRoundTrip(ps: seq<GenAI.Part>, ids: seq<string>)
    requires forall i | 0 <= i < |ps| :: Canonical(ps[i])
    ensures EncodeParts(ps, ids).Ok?
    ensures DecodeParts(EncodeParts(ps, ids).value) == Ok(ps)
  {
    forall i | 0 <= i < |ps|
      ensures A2APart(ps[i], ids).Ok? && GenAIPart(A2APart(ps[i], ids).value) == Ok(ps[i])
    {
      PartRoundTrip(ps[i], ids);
    }
    EncodePartsAligned(ps, ids);
    var ws := EncodeParts(ps, ids).value;
    DecodePartsAligned(ws);
    MapResultAllOk(DecodeFn(), ws, ps);
  }

  // ---- fallbacks ----

  /** Structured data with no type key, or with a type the decoder does not know, decodes
      to a text part holding the data's JSON; encoding that part again gives a text part
      with the same text and no metadata. */
  lemma OpaqueDataBecomesText(data: Fields, meta: Meta, ids: seq<string>)
    requires TypeKey !in meta || !KnownType(meta[TypeKey])
    requires EncodableFields(data)
    ensures GenAIPart(Wire.DataPart(data, meta)) == Ok(GenAI.TextPart(Render(Obj(data))))
    ensures A2APart(GenAI.TextPart(Render(Obj(data))), ids) == Ok(Wire.TextPart(Render(Obj(data)), map[]))
  {
    assert Render(Obj(data))[0] == '{';
  }

  /** A data part tagged with a type but holding data that cannot be marshalled fails to
      decode, and so does one holding a string where the record has a map. */
  lemma TypedDataErrors(data: Fields, meta: Meta)
    ensures !EncodableFields(data) ==> GenAIPart(Wire.DataPart(data, meta)).Err?
    ensures (TypeKey in meta && meta[TypeKey] == Str(TypeFunctionCall) && data == [Field("args", Str("x"))])
              ==> GenAIPart(Wire.DataPart(data, meta)).Err?
  {
    if TypeKey in meta && meta[TypeKey] == Str(TypeFunctionCall) && data == [Field("args", Str("x"))] {
      assert Lookup(data, "id") == None;
      assert Lookup(data, "args") == Some(Str("x"));
    }
  }

  /** A local part with none of the recognised fields set becomes an empty data part
      without metadata, which decodes to the text `{}`. */
  lemma EmptyPartFallback(p: GenAI.Part, ids: seq<string>)
    requires p.text == "" && p.inlineData.None? && p.fileData.None? && p.functionCall.None?
    requires p.functionResponse.None? && p.executableCode.None? && p.codeExecutionResult.None?
    ensures A2APart(p, ids) == Ok(Wire.DataPart([], map[]))
    ensures GenAIPart(A2APart(p, ids).value) == Ok(GenAI.TextPart("{}"))
  {
    assert RenderFields([]) == "";
    assert Render(Obj([])) == "{}";
    assert EncodableFields([]);
    assert GenAITextPart([]) == Ok(GenAI.TextPart("{}"));
  }

  // ---- failures ----

  /** Any part that fails to decode fails the whole list and the message's content. */
  lemma DecodeFailurePropagates(msg: Wire.Message, k: nat)
    requires k < |msg.parts| && GenAIPart(msg.parts[k]).Err?
    ensures DecodeParts(msg.parts).Err? && GenAIContent(msg).Err?
  {
    DecodePartsAligned(msg.parts);
  }

  /** The three per-part decoding failures: a wire part of an unknown kind, a file part
      with no content, and file bytes that are not standard base64, each with its error
      text (the base64 one without the byte offset Go appends). */
  lemma DecodeFailures(name: string, meta: Meta)
    ensures GenAIPart(Wire.OtherPart(name)) == Err(UnknownPartTypeError + name)
    ensures GenAIPart(Wire.FilePart(Wire.NoFile, meta)) == Err(UnknownFileContentError)
    ensures GenAIPart(Wire.FilePart(Wire.FileBytes("", "", "/w"), meta)) == Err(Base64.CorruptInput)
  {
    Base64.UnpaddedRejected();
  }

  /** Encoding fails only on a record whose nested map cannot be marshalled, and on video
      metadata that cannot; a function response part is such a failure when its response
      holds an unsupported value. */
  lemma EncodeFailure(fr: GenAI.FunctionResponse, ids: seq<string>)
    requires fr.response == [Field("x", Unsupported)]
    ensures A2APart(GenAI.FunctionResponsePart(fr), ids).Err?
  {
    assert !EncodableFields(fr.response) by {
      assert !Encodable(fr.response[0].value);
    }
  }
}
