/**
 * The Gemini backend (gemini.go:15-92): dialing, the generation settings
 * `Invoke` puts on the model, and the loop that copies the text parts of each
 * streamed response to the writer.
 */
module Gemini {
  import opened Wrappers
  import opened Llawk
  import opened Output
  import opened Schema

  /** GoogleLLM (gemini.go:15-18); the SDK client is not modelled. */
  datatype GoogleLLM = GoogleLLM(model: string)

  /** GoogleDialer.Dial (gemini.go:81-92). `clientErr` is the outcome of genai.NewClient. */
  function Dial(model: string, clientErr: Option<string>): (r: Result<GoogleLLM, Error>)
    ensures r.Ok? <==> clientErr.None?
    ensures r.Ok? ==> r.value.model == model
    ensures r.Err? ==> r.error == ClientCreation(clientErr.value)
  {
    match clientErr
    case Some(cause) => Err(ClientCreation(cause))
    case None => Ok(GoogleLLM(model))
  }

  /** The one model name that is not given the code-execution tool (gemini.go:30). */
  const LiteModel: string := "gemini-2.0-flash-lite"

  /** The response MIME type for a request format (gemini.go:38-45); None leaves it unset. */
  function MimeType(format: string): (m: Option<string>)
    ensures m.Some? <==> format in {PlainText, Json, JsonSchema}
    ensures m == Some("text/plain") <==> format == PlainText
    ensures m == Some("application/json") <==> format == Json || format == JsonSchema
  {
    if format == PlainText then Some("text/plain")
    else if format == Json || format == JsonSchema then Some("application/json")
    else None
  }

  /** The settings of the genai.GenerativeModel and the prompt sent (gemini.go:25-56). */
  datatype GenerationRequest = GenerationRequest(
    model: string,
    temperatureZero: bool,
    codeExecution: bool,
    mimeType: Option<string>,
    responseSchema: Option<GeminiSchema>,
    systemInstruction: string,
    prompt: string)

  /** A part of a response candidate's content: text, or anything else (code, calls, data). */
  datatype Part = Text(text: Bytes) | OtherPart

  /** A candidate; `content` is nil when the candidate carries no content. */
  datatype Candidate = Candidate(content: Option<seq<Part>>)

  datatype GenerateResponse = GenerateResponse(candidates: seq<Candidate>)

  /** What the iterator yields: the responses in order, then the error that ended it, if any. */
  datatype ResponseStream = ResponseStream(responses: seq<GenerateResponse>, err: Option<string>)

  /** The text parts among `parts`, in order. */
  function TextsOf(parts: seq<Part>): (texts: seq<Bytes>)
    ensures |texts| <= |parts|
    ensures forall t :: t in texts ==> Text(t) in parts
    ensures (forall i :: 0 <= i < |parts| ==> parts[i].Text?) ==>
      |texts| == |parts| && forall i :: 0 <= i < |parts| ==> texts[i] == parts[i].text
    ensures (forall i :: 0 <= i < |parts| ==> !parts[i].Text?) ==> texts == []
  {
    if parts == [] then []
    else
      var rest := TextsOf(parts[1..]);
      assert forall t :: t in rest ==> Text(t) in parts by {
        assert forall p :: p in parts[1..] ==> p in parts;
      }
      if parts[0].Text? then [parts[0].text] + rest else rest
  }

  /** Splitting the parts splits the texts: texts keep their order across the whole content. */
  lemma {:induction false} TextsOfAppend(a: seq<Part>, b: seq<Part>)
    ensures TextsOf(a + b) == TextsOf(a) + TextsOf(b)
    decreases |a|
  {
    if a == [] {
      assert a + b == b;
    } else {
      assert (a + b)[1..] == a[1..] + b;
      TextsOfAppend(a[1..], b);
    }
  }

  /** What one response contributes: the text parts of its first candidate, if that has content
      (a response without candidates never gets this far). */
  function ResponseTexts(resp: GenerateResponse): (texts: seq<Bytes>)
    ensures |resp.candidates| > 0 && resp.candidates[0].content.None? ==> texts == []
    ensures |resp.candidates| > 0 && resp.candidates[0].content.Some? ==>
      forall t :: t in texts ==> Text(t) in resp.candidates[0].content.value
  {
    if |resp.candidates| == 0 then []
    else match resp.candidates[0].content
      case None => []
      case Some(parts) => TextsOf(parts)
  }

  /** Only the first candidate counts: the others never reach the writer. */
  lemma FirstCandidateOnly(c: Candidate, others: seq<Candidate>)
    ensures ResponseTexts(GenerateResponse([c] + others)) == ResponseTexts(GenerateResponse([c]))
  {
  }

  /** The number of responses before the first one without candidates (the panic point). */
  function FirstEmpty(responses: seq<GenerateResponse>): (k: nat)
    ensures k <= |responses|
    ensures k < |responses| ==> |responses[k].candidates| == 0
  {
    if responses == [] || |responses[0].candidates| == 0 then 0
    else 1 + FirstEmpty(responses[1..])
  }

  /** No response before FirstEmpty lacks candidates. */
  lemma {:induction false} FirstEmptyIsFirst(responses: seq<GenerateResponse>, i: nat)
    requires i < |responses| && |responses[i].candidates| == 0
    ensures FirstEmpty(responses) <= i
  {
    if i > 0 && |responses[0].candidates| > 0 {
      FirstEmptyIsFirst(responses[1..], i - 1);
    }
  }

  /** The text pieces written for `responses`, in order. */
  function StreamTexts(responses: seq<GenerateResponse>): seq<Bytes>
  {
    if responses == [] then []
    else StreamTexts(responses[..|responses| - 1]) + ResponseTexts(responses[|responses| - 1])
  }

  lemma StreamTextsStep(responses: seq<GenerateResponse>, i: nat)
    requires i < |responses|
    ensures StreamTexts(responses[..i + 1]) == StreamTexts(responses[..i]) + ResponseTexts(responses[i])
  {
    assert responses[..i + 1][..i] == responses[..i];
  }

  /**
   * GoogleLLM.Invoke (gemini.go:24-76). The temperature is always set to 0, the code-execution
   * tool is given to every model but LiteModel, and the MIME type follows the format; a schema
   * that does not parse returns "Invalid schema" before any request. The text parts of each
   * response's first candidate are written in order (write errors are ignored, as with
   * fmt.Fprint); a response without candidates panics, a stream error returns
   * "Failed to generate content".
   */
  method Invoke(llm: GoogleLLM, w: NewLineTracer, r: Request, prompts: Prompts,
                parse: string -> Result<JSONSchema, string>, stream: ResponseStream)
    returns (sent: Option<GenerationRequest>, err: Option<Error>)
    requires w.Valid()
    modifies w, w.w
    ensures w.Valid()
    ensures r.format == JsonSchema && parse(r.schema).Err? ==>
      && sent.None?
      && err == Some(InvalidSchema(parse(r.schema).error))
      && w.traced == old(w.traced) && w.w.data == old(w.w.data) && w.w.left == old(w.w.left)
    ensures !(r.format == JsonSchema && parse(r.schema).Err?) ==>
      var k := FirstEmpty(stream.responses);
      var texts := StreamTexts(stream.responses[..k]);
      && sent == Some(GenerationRequest(
           llm.model, true, llm.model != LiteModel, MimeType(r.format),
           if r.format == JsonSchema then Some(ToGemini(parse(r.schema).value)) else None,
           prompts.system, prompts.user))
      && w.traced == old(w.traced) + Concat(texts)
      && w.w.data == old(w.w.data) + Concat(Landed(old(w.w.left), texts))
      && w.w.left == LeftAfter(old(w.w.left), |texts|)
      && err == if k < |stream.responses| then Some(IndexOutOfRange)
                else if stream.err.Some? then Some(GenerateFailed(stream.err.value))
                else None
  {
    var req := GenerationRequest(llm.model, true, false, None, None, prompts.system, prompts.user);
    if llm.model != LiteModel {
      req := req.(codeExecution := true);
    }
    if r.format == PlainText {
      req := req.(mimeType := Some("text/plain"));
    } else if r.format == Json {
      req := req.(mimeType := Some("application/json"));
    } else if r.format == JsonSchema {
      req := req.(mimeType := Some("application/json"));
      var parsed := parse(r.schema);
      if parsed.Err? {
        return None, Some(InvalidSchema(parsed.error));
      }
      req := req.(responseSchema := Some(ToGemini(parsed.value)));
    }
    sent := Some(req);

    err := WriteResponses(w, stream.responses);
    if err.None? && stream.err.Some? {
      err := Some(GenerateFailed(stream.err.value));
    }
  }

  /** Writes one response's texts after the pieces `done`, keeping the account of what has been
      traced and what has landed since the start of the stream. */
  method WriteMore(w: NewLineTracer, texts: seq<Bytes>,
                   ghost left0: Option<nat>, ghost data0: Bytes, ghost traced0: Bytes, ghost done: seq<Bytes>)
    requires w.Valid()
    requires w.traced == traced0 + Concat(done)
    requires w.w.data == data0 + Concat(Landed(left0, done))
    requires w.w.left == LeftAfter(left0, |done|)
    modifies w, w.w
    ensures w.Valid()
    ensures w.traced == traced0 + Concat(done + texts)
    ensures w.w.data == data0 + Concat(Landed(left0, done + texts))
    ensures w.w.left == LeftAfter(left0, |done + texts|)
  {
    WriteRunsCompose(left0, done, texts);
    AppendAssoc(traced0, Concat(done), Concat(texts));
    AppendAssoc(data0, Concat(Landed(left0, done)), Concat(Landed(LeftAfter(left0, |done|), texts)));
    w.WriteAll(texts);
  }

  /** The `for { iter.Next() … }` loop of gemini.go:57-73, up to the stream's end or to the
      first response without candidates, where the Go code panics. */
  method WriteResponses(w: NewLineTracer, responses: seq<GenerateResponse>) returns (err: Option<Error>)
    requires w.Valid()
    modifies w, w.w
    ensures w.Valid()
    ensures w.traced == old(w.traced) + Concat(StreamTexts(responses[..FirstEmpty(responses)]))
    ensures w.w.data == old(w.w.data) + Concat(Landed(old(w.w.left), StreamTexts(responses[..FirstEmpty(responses)])))
    ensures w.w.left == LeftAfter(old(w.w.left), |StreamTexts(responses[..FirstEmpty(responses)])|)
    ensures err == if FirstEmpty(responses) < |responses| then Some(IndexOutOfRange) else None
  {
    ghost var left0, data0, traced0 := w.w.left, w.w.data, w.traced;
    ghost var stop := FirstEmpty(responses);
    ghost var done: seq<Bytes> := [];
    var i := 0;
    while i < |responses| && |responses[i].candidates| > 0
      invariant 0 <= i <= stop
      invariant done == StreamTexts(responses[..i])
      invariant w.Valid()
      invariant w.traced == traced0 + Concat(done)
      invariant w.w.data == data0 + Concat(Landed(left0, done))
      invariant w.w.left == LeftAfter(left0, |done|)
    {
      assert i < stop;
      var texts := ResponseTexts(responses[i]);
      StreamTextsStep(responses, i);
      WriteMore(w, texts, left0, data0, traced0, done);
      done := done + texts;
      i := i + 1;
    }
    if i < |responses| {
      FirstEmptyIsFirst(responses, i);
    }
    assert i == stop;
    err := if i < |responses| then Some(IndexOutOfRange) else None;
  }
}
