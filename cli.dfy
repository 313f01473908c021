/**
 * The path of main.go's `main` from the `-m list` check to the last byte written
 * (main.go:163-173, 185-205, 258-266): list the models, or classify the format, pick and
 * dial the model, run the backend through a NewLineTracer, and end the output with a newline.
 */
module Cli {
  import opened Wrappers
  import opened Llawk
  import opened Output
  import opened Registry
  import OpenAI
  import Gemini
  import Schema
  import Ollama

  /**
   * What the outside world answers, fixed in advance: the vendor client's construction
   * error, the two JSON-schema parsers, and the stream each backend would receive.
   */
  datatype World<J> = World(
    clientErr: Option<string>,
    openAIParse: string -> Result<J, string>,
    deltas: OpenAI.DeltaStream,
    geminiParse: string -> Result<Schema.JSONSchema, string>,
    responses: Gemini.ResponseStream,
    chat: Ollama.ChatOutcome)

  /** What a backend run hands to the tracer, what of it lands in the output, the successful
      writes the output has left afterwards, and the error the run returns. */
  datatype Outcome = Outcome(text: Bytes, landed: Bytes, left: Option<nat>, err: Option<Error>)

  /** OpenAILLM.Invoke against a sink with `left` successful writes and fault `fault`. */
  function OpenAIOutcome<J>(r: Request, world: World<J>, left: Option<nat>, fault: string): Outcome {
    var format := OpenAI.SelectFormat(r.format, r.schema, world.openAIParse);
    var deltas := world.deltas.deltas;
    if format.Err? then Outcome([], [], left, Some(format.error))
    else Outcome(Concat(deltas[..OpenAI.Attempted(left, |deltas|)]), Concat(Landed(left, deltas)),
                 LeftAfter(left, OpenAI.Attempted(left, |deltas|)),
                 if OpenAI.FirstFailure(left, |deltas|).Some? then Some(WriteChunkFailed(fault))
                 else if world.deltas.err.Some? then Some(Transport(world.deltas.err.value))
                 else None)
  }

  /** GoogleLLM.Invoke; it ignores write errors, so every text is handed over whatever lands. */
  function GeminiOutcome<J>(r: Request, world: World<J>, left: Option<nat>): Outcome {
    var responses := world.responses.responses;
    var k := Gemini.FirstEmpty(responses);
    var texts := Gemini.StreamTexts(responses[..k]);
    if r.format == JsonSchema && world.geminiParse(r.schema).Err? then
      Outcome([], [], left, Some(InvalidSchema(world.geminiParse(r.schema).error)))
    else Outcome(Concat(texts), Concat(Landed(left, texts)), LeftAfter(left, |texts|),
                 if k < |responses| then Some(IndexOutOfRange)
                 else if world.responses.err.Some? then Some(GenerateFailed(world.responses.err.value))
                 else None)
  }

  /** OllamaLLM.Invoke; it ignores write errors, so every content is handed over whatever lands. */
  function OllamaOutcome<J>(llm: Ollama.OllamaLLM, r: Request, world: World<J>, left: Option<nat>): Outcome {
    var format := Ollama.RawFormat(llm, r.format, r.schema);
    var contents := world.chat.contents;
    if format.Err? then Outcome([], [], left, Some(format.error))
    else Outcome(Concat(contents), Concat(Landed(left, contents)), LeftAfter(left, |contents|),
                 if world.chat.err.Some? then Some(GenerateFailed(world.chat.err.value)) else None)
  }

  /** `llm.Invoke(ctx, writer, r)` (main.go:259) for whichever backend NewLLM returned. */
  function BackendOutcome<J>(llm: LLM, r: Request, world: World<J>, left: Option<nat>, fault: string): Outcome {
    match llm
    case OpenAIModel(_) => OpenAIOutcome(r, world, left, fault)
    case GoogleModel(_) => GeminiOutcome(r, world, left)
    case OllamaModel(m) => OllamaOutcome(m, r, world, left)
  }

  /** With a known format, a sink that never fails and a stream that ends cleanly, the OpenAI
      backend succeeds and hands over every delta. */
  lemma OpenAICleanRun<J>(r: Request, world: World<J>, fault: string)
    requires OpenAI.SelectFormat(r.format, r.schema, world.openAIParse).Ok?
    requires world.deltas.err.None?
    ensures OpenAIOutcome(r, world, None, fault) ==
      Outcome(Concat(world.deltas.deltas), Concat(world.deltas.deltas), None, None)
  {
    var deltas := world.deltas.deltas;
    assert deltas[..OpenAI.Attempted(None, |deltas|)] == deltas;
  }

  /** With a usable schema, every response carrying a candidate and a clean end of stream, the
      Gemini backend succeeds and hands over the texts of every response. */
  lemma GeminiCleanRun<J>(r: Request, world: World<J>, left: Option<nat>)
    requires !(r.format == JsonSchema && world.geminiParse(r.schema).Err?)
    requires forall i :: 0 <= i < |world.responses.responses| ==> |world.responses.responses[i].candidates| > 0
    requires world.responses.err.None?
    ensures GeminiOutcome(r, world, left).text == Concat(Gemini.StreamTexts(world.responses.responses))
    ensures GeminiOutcome(r, world, left).err.None?
  {
    var responses := world.responses.responses;
    var k := Gemini.FirstEmpty(responses);
    assert k == |responses|;
    assert responses[..k] == responses;
  }

  /** A backend run that returns no error: the stream ended cleanly and, for OpenAI, no write
      failed; nothing else counts as success. */
  lemma {:induction false} SuccessMeansCleanStream<J>(llm: LLM, r: Request, world: World<J>, left: Option<nat>, fault: string)
    requires BackendOutcome(llm, r, world, left, fault).err.None?
    ensures llm.OpenAIModel? ==> world.deltas.err.None? && OpenAI.FirstFailure(left, |world.deltas.deltas|).None?
    ensures llm.GoogleModel? ==>
      world.responses.err.None? && Gemini.FirstEmpty(world.responses.responses) == |world.responses.responses|
    ensures llm.OllamaModel? ==> world.chat.err.None?
  {
    match llm
    case OpenAIModel(_) =>
      assert OpenAI.SelectFormat(r.format, r.schema, world.openAIParse).Ok?;
    case GoogleModel(_) =>
      assert !(r.format == JsonSchema && world.geminiParse(r.schema).Err?);
    case OllamaModel(m) =>
      assert Ollama.RawFormat(m, r.format, r.schema).Ok?;
  }

  /** The exit status: 0 on success, 2 for the index panic Go's runtime raises on a Gemini
      response without candidates, 1 for every error main reports (`os.Exit(1)`). */
  function ExitStatus(err: Option<Error>): (status: int)
    ensures status == 0 <==> err.None?
    ensures status == 2 <==> err == Some(IndexOutOfRange)
    ensures status in {0, 1, 2}
  {
    match err
    case None => 0
    case Some(IndexOutOfRange) => 2
    case Some(_) => 1
  }

  /** main.go:263-265: a newline goes to the output only when the tracer saw none last. */
  method FinishLine(t: NewLineTracer)
    requires t.Valid()
    modifies t.w
    ensures t.hasNewLine ==> t.w.data == old(t.w.data) && t.w.left == old(t.w.left)
    ensures !t.hasNewLine ==> t.w.left == LeftAfter(old(t.w.left), 1)
    ensures !t.hasNewLine && old(t.w.Healthy()) ==> t.w.data == old(t.w.data) + [Newline]
    ensures !t.hasNewLine && !old(t.w.Healthy()) ==> t.w.data == old(t.w.data)
  {
    if !t.hasNewLine {
      var _, _ := t.w.Write([Newline]);
    }
  }

  /** The OpenAI backend behind the tracer: it hands over and returns what OpenAIOutcome says,
      and against a sink that never fails all of it lands. */
  method InvokeOpenAI<J>(m: OpenAI.OpenAILLM, writer: NewLineTracer, r: Request, prompts: Prompts, world: World<J>)
    returns (err: Option<Error>)
    requires writer.Valid() && writer.traced == []
    modifies writer, writer.w
    ensures writer.Valid()
    ensures writer.traced == OpenAIOutcome(r, world, old(writer.w.left), writer.w.fault).text
    ensures err == OpenAIOutcome(r, world, old(writer.w.left), writer.w.fault).err
    ensures writer.w.data == old(writer.w.data) + OpenAIOutcome(r, world, old(writer.w.left), writer.w.fault).landed
    ensures writer.w.left == OpenAIOutcome(r, world, old(writer.w.left), writer.w.fault).left
    ensures old(writer.w.left).None? ==> writer.w.left.None? && writer.w.data == old(writer.w.data) + writer.traced
  {
    var deltas := world.deltas.deltas;
    assert old(writer.w.left).None? ==> deltas[..OpenAI.Attempted(old(writer.w.left), |deltas|)] == deltas;
    var _, e := OpenAI.Invoke(m, writer, r, prompts, world.openAIParse, world.deltas);
    err := e;
  }

  /** The Gemini backend behind the tracer: it hands over and returns what GeminiOutcome says,
      and against a sink that never fails all of it lands. */
  method InvokeGemini<J>(m: Gemini.GoogleLLM, writer: NewLineTracer, r: Request, prompts: Prompts, world: World<J>)
    returns (err: Option<Error>)
    requires writer.Valid() && writer.traced == []
    modifies writer, writer.w
    ensures writer.Valid()
    ensures writer.traced == GeminiOutcome(r, world, old(writer.w.left)).text
    ensures err == GeminiOutcome(r, world, old(writer.w.left)).err
    ensures writer.w.data == old(writer.w.data) + GeminiOutcome(r, world, old(writer.w.left)).landed
    ensures writer.w.left == GeminiOutcome(r, world, old(writer.w.left)).left
    ensures old(writer.w.left).None? ==> writer.w.left.None? && writer.w.data == old(writer.w.data) + writer.traced
  {
    ghost var data0, left0 := writer.w.data, writer.w.left;
    ghost var texts := Gemini.StreamTexts(world.responses.responses[..Gemini.FirstEmpty(world.responses.responses)]);
    var _, e := Gemini.Invoke(m, writer, r, prompts, world.geminiParse, world.responses);
    err := e;
    if left0.None? && !(r.format == JsonSchema && world.geminiParse(r.schema).Err?) {
      assert writer.traced == Concat(texts);
      assert writer.w.data == data0 + Concat(Landed(left0, texts));
    }
  }

  /** The Ollama backend behind the tracer: it hands over and returns what OllamaOutcome says,
      and against a sink that never fails all of it lands. */
  method InvokeOllama<J>(m: Ollama.OllamaLLM, writer: NewLineTracer, r: Request, prompts: Prompts, world: World<J>)
    returns (err: Option<Error>)
    requires writer.Valid() && writer.traced == []
    modifies writer, writer.w
    ensures writer.Valid()
    ensures writer.traced == OllamaOutcome(m, r, world, old(writer.w.left)).text
    ensures err == OllamaOutcome(m, r, world, old(writer.w.left)).err
    ensures writer.w.data == old(writer.w.data) + OllamaOutcome(m, r, world, old(writer.w.left)).landed
    ensures writer.w.left == OllamaOutcome(m, r, world, old(writer.w.left)).left
    ensures old(writer.w.left).None? ==> writer.w.left.None? && writer.w.data == old(writer.w.data) + writer.traced
  {
    var _, e := Ollama.Invoke(m, writer, r, prompts, world.chat);
    err := e;
  }

  /** `llm.Invoke(ctx, writer, r)` (main.go:259), dispatched on the backend NewLLM chose. */
  method InvokeBackend<J>(llm: LLM, writer: NewLineTracer, r: Request, prompts: Prompts, world: World<J>)
    returns (err: Option<Error>)
    requires writer.Valid() && writer.traced == []
    modifies writer, writer.w
    ensures writer.Valid()
    ensures writer.traced == BackendOutcome(llm, r, world, old(writer.w.left), writer.w.fault).text
    ensures err == BackendOutcome(llm, r, world, old(writer.w.left), writer.w.fault).err
    ensures writer.w.data == old(writer.w.data) + BackendOutcome(llm, r, world, old(writer.w.left), writer.w.fault).landed
    ensures writer.w.left == BackendOutcome(llm, r, world, old(writer.w.left), writer.w.fault).left
    ensures old(writer.w.left).None? ==> writer.w.left.None? && writer.w.data == old(writer.w.data) + writer.traced
  {
    match llm {
      case OpenAIModel(m) => err := InvokeOpenAI(m, writer, r, prompts, world);
      case GoogleModel(m) => err := InvokeGemini(m, writer, r, prompts, world);
      case OllamaModel(m) => err := InvokeOllama(m, writer, r, prompts, world);
    }
  }

  /** main.go:263-265 after a backend run: a newline is written when the run succeeded and the
      text handed over does not end in one. */
  predicate NeedsNewline(o: Outcome) {
    o.err.None? && !EndsInNewline(o.text)
  }

  /** The newline main.go:264 adds, as far as it reaches the output. */
  function NewlineLanded(o: Outcome): Bytes {
    if NeedsNewline(o) && o.left != Some(0) then [Newline] else []
  }

  /** The request main builds for a format choice. */
  function WithFormat(base: Request, c: FormatChoice): Request {
    base.(format := c.format, schema := c.schema)
  }

  /**
   * From the `-m list` check on. `llawkModel` is the LLAWK_MODEL variable, `base` carries what
   * main fills in from flags and files (instruction, input, names, verbosity), `prompts` the
   * rendered prompts. Returns the exit status, the error reported on stderr, the lines
   * printed for `-m list`, and (ghost) every byte the backend handed to the tracer.
   */
  method Run<J>(flag: string, model: string, llawkModel: Option<string>, isJSONSchema: string -> bool,
                base: Request, prompts: Prompts, world: World<J>, output: Sink)
    returns (status: int, err: Option<Error>, listing: seq<string>, ghost emitted: Bytes)
    modifies output
    ensures status == ExitStatus(err)
    ensures model == "list" ==>
      && err.None? && output.data == old(output.data) && output.left == old(output.left)
      && |listing| == |Models| + 1 && listing[0] == "Available models:"
      && forall i :: 0 <= i < |Models| ==> listing[i + 1] == ListLine(Models[i], DefaultModel(llawkModel))
    ensures model != "list" ==> listing == []
    ensures model != "list" && ClassifyFormat(flag, isJSONSchema).Err? ==>
      err == Some(UnsupportedFormat(flag)) && output.data == old(output.data) && output.left == old(output.left)
    ensures model != "list" && ClassifyFormat(flag, isJSONSchema).Ok? && Lookup(model).None? ==>
      err == Some(UnknownModel(model)) && output.data == old(output.data) && output.left == old(output.left)
    ensures model != "list" && ClassifyFormat(flag, isJSONSchema).Ok? && Lookup(model).Some? ==>
      var dialed := Dial(Models[Lookup(model).value].dialer, model, world.clientErr);
      && (dialed.Err? ==>
            err == Some(dialed.error) && output.data == old(output.data) && output.left == old(output.left))
      && (dialed.Ok? ==>
            var o := BackendOutcome(dialed.value, WithFormat(base, ClassifyFormat(flag, isJSONSchema).value),
                                    world, old(output.left), output.fault);
            && emitted == o.text && err == o.err
            && output.data == old(output.data) + o.landed + NewlineLanded(o)
            && output.left == (if NeedsNewline(o) then LeftAfter(o.left, 1) else o.left))
    ensures old(output.left).None? && err.None? && model != "list" ==>
      output.data == old(output.data) + Terminated(emitted)
    ensures old(output.left).None? && err.Some? ==> output.data == old(output.data) + emitted
  {
    listing := [];
    emitted := [];
    if model == "list" {
      listing := ListModels(DefaultModel(llawkModel));
      return 0, None, listing, [];
    }
    var choice := ClassifyFormat(flag, isJSONSchema);
    if choice.Err? {
      return 1, Some(choice.error), [], [];
    }
    var r := WithFormat(base, choice.value);
    var llm := NewLLM(model, world.clientErr);
    if llm.Err? {
      return 1, Some(llm.error), [], [];
    }
    var writer := new NewLineTracer(output);
    var invokeErr := InvokeBackend(llm.value, writer, r, prompts, world);
    emitted := writer.traced;
    if invokeErr.Some? {
      return ExitStatus(invokeErr), invokeErr, [], emitted;
    }
    FinishLine(writer);
    return 0, None, [], emitted;
  }

  /** `llawk -m gpt-4o` on a stream that sends "hi" and ends cleanly, into an empty output
      that accepts every write: the output is "hi" and a newline, and the exit status is 0. */
  method HelloRun() returns (status: int, written: Bytes)
    ensures status == 0 && written == [104, 105, Newline]
  {
    var output := new Sink([], None, "closed");
    var hi: Bytes := [104, 105];
    var world: World<int> := World(None, (s: string) => Ok(0), OpenAI.DeltaStream([hi], None),
                            (s: string) => Err("unused"), Gemini.ResponseStream([], None),
                            Ollama.ChatOutcome([], None));
    var base := Request("Say hi", "", "<stdin>", "", "", "<stdout>", false);
    ListedNamesResolve(0);
    assert Lookup("gpt-4o") == Some(0);
    var isJSONSchema := (s: string) => false;
    assert ClassifyFormat("text", isJSONSchema) == Ok(FormatChoice(PlainText, ""));
    ghost var r := WithFormat(base, FormatChoice(PlainText, ""));
    ghost var llm := OpenAIModel(OpenAI.OpenAILLM("gpt-4o"));
    assert Dial(Models[0].dialer, "gpt-4o", world.clientErr) == Ok(llm);
    OpenAICleanRun(r, world, "closed");
    assert Concat([hi]) == hi by {
      assert [hi][..0] == [];
    }
    assert BackendOutcome(llm, r, world, None, "closed") == Outcome(hi, hi, None, None);
    var err, listing;
    ghost var emitted;
    status, err, listing, emitted := Run("text", "gpt-4o", None, isJSONSchema, base,
                                         Prompts("system", "user"), world, output);
    assert err.None? && emitted == hi;
    written := output.data;
  }
}
