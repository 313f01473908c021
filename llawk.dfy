/**
 * The request that main.go builds and every backend reads, the errors the
 * program reports, and the classification of the `-f` flag into a request
 * format (main.go:44-52, 117-120, 185-198).
 */
module Llawk {
  import opened Wrappers

  /** The three values of `Request.Format` that main.go ever produces. */
  const PlainText: string := "plain text"
  const Json: string := "JSON"
  const JsonSchema: string := "JSON Schema"

  /** main.go:44-52. `format` and `schema` are plain strings, as in the source, so that
      the backends' handling of any other format can be modelled too. */
  datatype Request = Request(
    instruct: string,
    input: string,
    inputName: string,
    format: string,
    schema: string,
    outputName: string,
    verbose: bool)

  /** The rendered system and user prompts. Rendering depends on embedded templates and
      on the wall clock, so the model receives them as given text. */
  datatype Prompts = Prompts(system: string, user: string)

  /** Every error value the core returns; `cause` is the text of a wrapped error. */
  datatype Error =
    | UnsupportedFormat(flag: string)
    | UnknownModel(model: string)
    | ClientCreation(cause: string)
    | OllamaClientCreation(cause: string)
    | InvalidSchema(cause: string)
    | GenerateFailed(cause: string)
    | WriteChunkFailed(cause: string)
    | Transport(cause: string)
    | FormatNotSupported(model: string, format: string)
    | IndexOutOfRange
  {
    /** Whether this error wraps the text of another one (`%w`, or returned unchanged). */
    predicate Wraps() {
      ClientCreation? || OllamaClientCreation? || InvalidSchema? || GenerateFailed? ||
      WriteChunkFailed? || Transport?
    }

    /** The text the program prints for this error: a wrapped cause comes last, unchanged,
        and the fixed wording in front of it names what failed. */
    function Message(): (msg: string)
      ensures Wraps() ==> EndsWith(msg, cause)
      ensures Transport? ==> msg == cause
      ensures UnsupportedFormat? ==> EndsWith(msg, flag)
      ensures UnknownModel? ==> "Unknown model: " <= msg && model <= msg[|"Unknown model: "|..]
      ensures FormatNotSupported? ==> "Model " + model <= msg && EndsWith(msg, format)
    {
      if Wraps() then Wrap(Wording(), cause)
      else match this
        case UnsupportedFormat(f) => Wrap("Unsupported format: ", f)
        case UnknownModel(m) => UnknownModelText(m)
        case FormatNotSupported(m, f) => NotSupportedText(m, f)
        case _ => "runtime error: index out of range [0] with length 0"
    }

    /** The fixed wording in front of a wrapped cause; a stream error has none. */
    function Wording(): string {
      match this
      case ClientCreation(_) => "Failed to create client: "
      case OllamaClientCreation(_) => "Failed to create Ollama client: "
      case InvalidSchema(_) => "Invalid schema: "
      case GenerateFailed(_) => "Failed to generate content: "
      case WriteChunkFailed(_) => "Failed to write chunk: "
      case _ => ""
    }
  }

  /** `suffix` is the end of `s`. */
  predicate EndsWith(s: string, suffix: string) {
    |s| >= |suffix| && s[|s| - |suffix|..] == suffix
  }

  /** A fixed wording followed by the text it reports, as `fmt.Errorf("...: %w", err)` builds it. */
  function Wrap(wording: string, cause: string): (msg: string)
    ensures wording <= msg && msg[|wording|..] == cause && EndsWith(msg, cause)
  {
    wording + cause
  }

  /** The message NewLLM returns for a model no entry accepts (main.go:84). */
  function UnknownModelText(model: string): (msg: string)
    ensures "Unknown model: " <= msg && model <= msg[|"Unknown model: "|..]
  {
    Wrap("Unknown model: ", model + "\nPlease check -m list")
  }

  /** The message a backend returns for a format it does not offer. */
  function NotSupportedText(model: string, format: string): (msg: string)
    ensures "Model " + model <= msg && EndsWith(msg, format)
  {
    var wording := Wrap("Model ", model) + " does not support format ";
    assert "Model " + model <= wording;
    Wrap(wording, format)
  }

  /** What the `-f` flag turns into: the request's `Format` and `Schema` fields. */
  datatype FormatChoice = FormatChoice(format: string, schema: string)

  /** The request invariant: one of the three formats, and a schema text, accepted by the
      schema check, exactly in the JSON Schema case. */
  ghost predicate WellFormedChoice(c: FormatChoice, isJSONSchema: string -> bool) {
    || c == FormatChoice(PlainText, "")
    || c == FormatChoice(Json, "")
    || (c.format == JsonSchema && isJSONSchema(c.schema))
  }

  /** The `-f` flag that selects a format choice: the inverse of ClassifyFormat. */
  function FlagOf(c: FormatChoice): string {
    if c.format == PlainText then "text"
    else if c.format == Json then "json"
    else c.schema
  }

  /**
   * The `switch *format` of main.go:185-198. `isJSONSchema` stands for IsJSONSchema
   * (main.go:117-120), a JSON parse the model does not look into.
   */
  function ClassifyFormat(flag: string, isJSONSchema: string -> bool): (r: Result<FormatChoice, Error>)
    ensures flag == "text" ==> r == Ok(FormatChoice(PlainText, ""))
    ensures flag == "json" ==> r == Ok(FormatChoice(Json, ""))
    ensures flag != "text" && flag != "json" ==>
      (r.Ok? <==> isJSONSchema(flag)) &&
      (r.Ok? ==> r.value == FormatChoice(JsonSchema, flag)) &&
      (r.Err? ==> r.error == UnsupportedFormat(flag))
    ensures r.Ok? ==> WellFormedChoice(r.value, isJSONSchema)
    ensures r.Ok? ==> (r.value.schema != "" ==> r.value.format == JsonSchema)
  {
    if flag == "text" then Ok(FormatChoice(PlainText, ""))
    else if flag == "json" then Ok(FormatChoice(Json, ""))
    else if isJSONSchema(flag) then Ok(FormatChoice(JsonSchema, flag))
    else Err(UnsupportedFormat(flag))
  }

  /** Classification loses nothing: an accepted flag is recovered from its format choice. */
  lemma ClassifyThenFlag(flag: string, isJSONSchema: string -> bool)
    ensures ClassifyFormat(flag, isJSONSchema).Ok? ==> FlagOf(ClassifyFormat(flag, isJSONSchema).value) == flag
  {
  }

  /** Every well-formed format choice is reached by its own flag, except a schema whose
      text is literally `text` or `json` (neither of which is JSON). */
  lemma FlagThenClassify(c: FormatChoice, isJSONSchema: string -> bool)
    requires WellFormedChoice(c, isJSONSchema)
    requires c.format == JsonSchema ==> c.schema != "text" && c.schema != "json"
    ensures ClassifyFormat(FlagOf(c), isJSONSchema) == Ok(c)
  {
  }
}
