/**
 * The OpenAI backend (openai.go): dialing, the response-format union, the
 * temperature exception and the loop that copies streamed deltas to the writer.
 */
module OpenAI {
  import opened Wrappers
  import opened Llawk
  import opened Output

  /** OpenAILLM (openai.go:13-16); the SDK client is not modelled. */
  datatype OpenAILLM = OpenAILLM(model: string)

  /** OpenAIDialer.Dial (openai.go:78-83): client construction cannot fail and the
      model name is kept as given. */
  function Dial(model: string): (r: Result<OpenAILLM, Error>)
    ensures r.Ok? && r.value.model == model
  {
    Ok(OpenAILLM(model))
  }

  /** OpenAILLM.Close (openai.go:18-20). */
  function Close(llm: OpenAILLM): (err: Option<Error>)
    ensures err.None?
  {
    None
  }

  /** The three variants of responses.ResponseFormatTextConfigUnionParam the backend uses;
      J is whatever the JSON parser produces for a schema document. */
  datatype TextFormat = TextFormat(formatType: string)
  datatype JSONObjectFormat = JSONObjectFormat(formatType: string)
  datatype JSONSchemaFormat<J> = JSONSchemaFormat(name: string, schema: J, strict: bool, formatType: string)
  datatype FormatUnion<J> = FormatUnion(
    ofText: Option<TextFormat>,
    ofJSONObject: Option<JSONObjectFormat>,
    ofJSONSchema: Option<JSONSchemaFormat<J>>)

  /** How many variants of the union are set. */
  function VariantCount<J>(u: FormatUnion<J>): nat {
    (if u.ofText.Some? then 1 else 0) +
    (if u.ofJSONObject.Some? then 1 else 0) +
    (if u.ofJSONSchema.Some? then 1 else 0)
  }

  /** The model names for which the request carries no temperature (openai.go:58). */
  const NoTemperatureModels: set<string> := {"o4-mini", "o3"}

  /**
   * The format union of openai.go:23-44: exactly one variant for each of the three request
   * formats, none for any other format, and an "Invalid schema" error when the schema text
   * does not parse. `parse` stands for json.Unmarshal into `map[string]any`.
   */
  function SelectFormat<J>(format: string, schema: string, parse: string -> Result<J, string>)
    : (r: Result<FormatUnion<J>, Error>)
    ensures r.Err? <==> format == JsonSchema && parse(schema).Err?
    ensures r.Err? ==> r.error == InvalidSchema(parse(schema).error)
    ensures r.Ok? ==> VariantCount(r.value) == if format in {PlainText, Json, JsonSchema} then 1 else 0
    ensures r.Ok? && format == PlainText ==> r.value.ofText == Some(TextFormat("text"))
    ensures r.Ok? && format == Json ==> r.value.ofJSONObject == Some(JSONObjectFormat("json_type"))
    ensures r.Ok? && format == JsonSchema ==>
      r.value.ofJSONSchema == Some(JSONSchemaFormat("Output", parse(schema).value, true, "json_schema"))
  {
    if format == PlainText then
      Ok(FormatUnion(Some(TextFormat("text")), None, None))
    else if format == Json then
      Ok(FormatUnion(None, Some(JSONObjectFormat("json_type")), None))
    else if format == JsonSchema then
      match parse(schema)
      case Err(e) => Err(InvalidSchema(e))
      case Ok(s) => Ok(FormatUnion(None, None, Some(JSONSchemaFormat("Output", s, true, "json_schema"))))
    else
      Ok(FormatUnion(None, None, None))
  }

  /** responses.ResponseNewParams as openai.go:46-60 fills it in; `temperatureZero` says
      whether the temperature is set (to 0) at all. */
  datatype ResponseParams<J> = ResponseParams(
    input: string,
    model: string,
    instructions: string,
    truncation: string,
    format: FormatUnion<J>,
    temperatureZero: bool)

  /** What the response stream delivers: its deltas in arrival order, then the error that
      ended it, if any. */
  datatype DeltaStream = DeltaStream(deltas: seq<Bytes>, err: Option<string>)

  /** The index of the first delta whose write fails, when the sink allows `left` more
      successful writes and `n` deltas arrive. */
  function FirstFailure(left: Option<nat>, n: nat): (r: Option<nat>)
    ensures r.Some? ==> r.value < n
  {
    if left.Some? && left.value < n then Some(left.value) else None
  }

  /** How many deltas the loop hands to the writer: all of them, or up to and including
      the first one whose write fails. */
  function Attempted(left: Option<nat>, n: nat): (k: nat)
    ensures k <= n
  {
    match FirstFailure(left, n)
    case None => n
    case Some(i) => i + 1
  }

  /** The deltas the loop hands over are the deltas that land, plus the failing one:
      stopping at the first failed write loses no delta that a sink would have taken. */
  lemma AttemptedLanded(left: Option<nat>, deltas: seq<Bytes>)
    ensures Landed(left, deltas[..Attempted(left, |deltas|)]) == Landed(left, deltas)
    ensures FirstFailure(left, |deltas|).None? ==> Landed(left, deltas) == deltas
  {
  }

  /** The write of delta `i` fails exactly when the sink's successful writes ran out after `i`
      writes; the loop then has handed over `i + 1` deltas, of which the first `i` landed. */
  lemma FailsAt(left: Option<nat>, deltas: seq<Bytes>, i: nat)
    requires i < |deltas| && (left.None? || i <= left.value)
    ensures LeftAfter(left, i) == Some(0) <==> FirstFailure(left, |deltas|) == Some(i)
    ensures LeftAfter(left, i) == Some(0) ==>
      Attempted(left, |deltas|) == i + 1 && Landed(left, deltas) == deltas[..i]
  {
  }

  /**
   * The `for stream.Next()` loop of openai.go:65-71: each delta is written in arrival order
   * and the first failed write ends the loop with its error.
   */
  method WriteDeltas(w: NewLineTracer, deltas: seq<Bytes>) returns (writeErr: Option<string>)
    requires w.Valid()
    modifies w, w.w
    ensures w.Valid()
    ensures w.traced == old(w.traced) + Concat(deltas[..Attempted(old(w.w.left), |deltas|)])
    ensures w.w.data == old(w.w.data) + Concat(Landed(old(w.w.left), deltas))
    ensures writeErr == if FirstFailure(old(w.w.left), |deltas|).Some? then Some(w.w.fault) else None
    ensures w.w.left == LeftAfter(old(w.w.left), Attempted(old(w.w.left), |deltas|))
  {
    ghost var left0, data0, traced0 := w.w.left, w.w.data, w.traced;
    AttemptedLanded(left0, deltas);
    var i := 0;
    while i < |deltas|
      invariant 0 <= i <= |deltas|
      invariant w.Valid()
      invariant left0.None? || i <= left0.value
      invariant w.traced == traced0 + Concat(deltas[..i])
      invariant w.w.data == data0 + Concat(Landed(left0, deltas[..i]))
      invariant w.w.left == LeftAfter(left0, i)
    {
      FailsAt(left0, deltas, i);
      var e := w.WriteNext(deltas, i, left0, data0, traced0);
      if e.Some? {
        assert Landed(left0, deltas[..i + 1]) == deltas[..i];
        return e;
      }
      i := i + 1;
    }
    assert deltas[..i] == deltas;
    writeErr := None;
  }

  /**
   * OpenAILLM.Invoke (openai.go:22-74). An invalid schema returns before any request; otherwise
   * the request is sent and each delta is written in arrival order until a write fails
   * ("Failed to write chunk"), and the stream's own error is returned unchanged.
   */
  method Invoke<J>(llm: OpenAILLM, w: NewLineTracer, r: Request, prompts: Prompts,
                   parse: string -> Result<J, string>, stream: DeltaStream)
    returns (sent: Option<ResponseParams<J>>, err: Option<Error>)
    requires w.Valid()
    modifies w, w.w
    ensures w.Valid()
    ensures SelectFormat(r.format, r.schema, parse).Err? ==>
      && sent.None?
      && err == Some(SelectFormat(r.format, r.schema, parse).error)
      && w.traced == old(w.traced) && w.w.data == old(w.w.data) && w.w.left == old(w.w.left)
    ensures SelectFormat(r.format, r.schema, parse).Ok? ==>
      && sent == Some(ResponseParams(prompts.user, llm.model, prompts.system, "auto",
                                     SelectFormat(r.format, r.schema, parse).value,
                                     llm.model !in NoTemperatureModels))
      && w.traced == old(w.traced) + Concat(stream.deltas[..Attempted(old(w.w.left), |stream.deltas|)])
      && w.w.data == old(w.w.data) + Concat(Landed(old(w.w.left), stream.deltas))
      && w.w.left == LeftAfter(old(w.w.left), Attempted(old(w.w.left), |stream.deltas|))
      && err == if FirstFailure(old(w.w.left), |stream.deltas|).Some? then Some(WriteChunkFailed(w.w.fault))
                else if stream.err.Some? then Some(Transport(stream.err.value))
                else None
  {
    var format := SelectFormat(r.format, r.schema, parse);
    if format.Err? {
      return None, Some(format.error);
    }
    var req := ResponseParams(prompts.user, llm.model, prompts.system, "auto", format.value, false);
    if llm.model != "o4-mini" && llm.model != "o3" {
      req := req.(temperatureZero := true);
    }
    sent := Some(req);

    var writeErr := WriteDeltas(w, stream.deltas);
    if writeErr.Some? {
      return sent, Some(WriteChunkFailed(writeErr.value));
    }
    err := if stream.err.Some? then Some(Transport(stream.err.value)) else None;
  }
}
