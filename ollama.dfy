/**
 * The Ollama backend (ollama.go): dialing with the `ollama:` prefix removed,
 * the chat request `Invoke` builds, and the callback that copies each
 * response to the writer.
 */
module Ollama {
  import opened Wrappers
  import opened Llawk
  import opened Output

  /** The prefix that routes a model name to this backend (main.go:102, ollama.go:73). */
  const Prefix: string := "ollama:"

  /** OllamaLLM (ollama.go:13-16); the API client is not modelled. */
  datatype OllamaLLM = OllamaLLM(model: string)

  /** strings.TrimPrefix(model, "ollama:"): one leading prefix is removed, if present. */
  function TrimPrefix(model: string): (r: string)
    ensures Prefix <= model ==> Prefix + r == model
    ensures !(Prefix <= model) ==> r == model
  {
    if Prefix <= model then model[|Prefix|..] else model
  }

  /** Prefixing a name and trimming it gives the name back, whatever the name is (even one
      that itself starts with the prefix: only one copy is removed). */
  lemma TrimPrefixRoundTrip(name: string)
    ensures TrimPrefix(Prefix + name) == name
  {
    assert Prefix <= Prefix + name;
  }

  /** OllamaDialer.Dial (ollama.go:66-76). `clientErr` is the outcome of api.ClientFromEnvironment. */
  function Dial(model: string, clientErr: Option<string>): (r: Result<OllamaLLM, Error>)
    ensures r.Ok? <==> clientErr.None?
    ensures r.Ok? ==> r.value.model == TrimPrefix(model)
    ensures r.Err? ==> r.error == OllamaClientCreation(clientErr.value)
  {
    match clientErr
    case Some(cause) => Err(OllamaClientCreation(cause))
    case None => Ok(OllamaLLM(TrimPrefix(model)))
  }

  /** OllamaLLM.Close (ollama.go:18-20). */
  function Close(llm: OllamaLLM): (err: Option<Error>)
    ensures err.None?
  {
    None
  }

  datatype Message = Message(role: string, content: string)

  /** api.ChatRequest as ollama.go:35-50 fills it in. `format` is the raw JSON of the format
      field; None leaves it unset. */
  datatype ChatRequest = ChatRequest(model: string, messages: seq<Message>, stream: bool, format: Option<string>)

  /** The raw JSON format a request format is sent with (ollama.go:41-50): an error for
      any format but the three. */
  function RawFormat(llm: OllamaLLM, format: string, schema: string): (r: Result<Option<string>, Error>)
    ensures r.Err? <==> format !in {PlainText, Json, JsonSchema}
    ensures r.Err? ==> r.error == FormatNotSupported(llm.model, format)
    ensures format == PlainText ==> r == Ok(None)
    ensures format == Json ==> r == Ok(Some("\"json\""))
    ensures format == JsonSchema ==> r == Ok(Some(schema))
  {
    if format == PlainText then Ok(None)
    else if format == Json then Ok(Some("\"json\""))
    else if format == JsonSchema then Ok(Some(schema))
    else Err(FormatNotSupported(llm.model, format))
  }

  /** What Client.Chat does: the contents of the responses, in callback order, then the
      error it returns, if any. */
  datatype ChatOutcome = ChatOutcome(contents: seq<Bytes>, err: Option<string>)

  /**
   * OllamaLLM.Invoke (ollama.go:22-61). The request holds the system and the user message, in
   * that order, with streaming on; an unsupported format returns before any request. Each
   * response's content is written in callback order (write errors are ignored, as with
   * fmt.Fprint); a chat error returns "Failed to generate content".
   */
  method Invoke(llm: OllamaLLM, w: NewLineTracer, r: Request, prompts: Prompts, chat: ChatOutcome)
    returns (sent: Option<ChatRequest>, err: Option<Error>)
    requires w.Valid()
    modifies w, w.w
    ensures w.Valid()
    ensures RawFormat(llm, r.format, r.schema).Err? ==>
      && sent.None?
      && err == Some(RawFormat(llm, r.format, r.schema).error)
      && w.traced == old(w.traced) && w.w.data == old(w.w.data) && w.w.left == old(w.w.left)
    ensures RawFormat(llm, r.format, r.schema).Ok? ==>
      && sent == Some(ChatRequest(llm.model,
                                  [Message("system", prompts.system), Message("user", prompts.user)],
                                  true, RawFormat(llm, r.format, r.schema).value))
      && w.traced == old(w.traced) + Concat(chat.contents)
      && w.w.data == old(w.w.data) + Concat(Landed(old(w.w.left), chat.contents))
      && w.w.left == LeftAfter(old(w.w.left), |chat.contents|)
      && err == if chat.err.Some? then Some(GenerateFailed(chat.err.value)) else None
  {
    var messages := [Message("system", prompts.system), Message("user", prompts.user)];
    var req := ChatRequest(llm.model, messages, true, None);
    if r.format == PlainText {
    } else if r.format == Json {
      req := req.(format := Some("\"json\""));
    } else if r.format == JsonSchema {
      req := req.(format := Some(r.schema));
    } else {
      return None, Some(FormatNotSupported(llm.model, r.format));
    }
    sent := Some(req);

    w.WriteAll(chat.contents);
    err := if chat.err.Some? then Some(GenerateFailed(chat.err.value)) else None;
  }
}
