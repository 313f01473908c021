# llawk, modelled in Dafny

llawk is a command-line tool that sends an instruction and a text to a large language model
and writes the answer. The `-f` flag picks plain text, JSON, or a JSON Schema. `-m` picks a
model from a fixed table that covers OpenAI, Google Gemini and Ollama; `-m list` prints that
table instead. The answer is streamed to the output. When the backend succeeds and the output
accepts every write, the output ends with a newline.

This project models the decision logic of that path and proves what it promises:

- `Llawk` (llawk.dfy): the `Request`, the error values and their texts, and the
  classification of the `-f` flag.
- `Output` (output.dfy): the writer the answer goes to. It is a `Sink` class whose write
  failures are scripted in advance. It also holds the `NewLineTracer` class, whose
  `hasNewLine` field every write updates.
- `Schema` (schema.dfy): the `JSONSchema` tree and its translation into a Gemini schema.
- `OpenAI`, `Gemini`, `Ollama` (openai.dfy, gemini.dfy, ollama.dfy): each backend's dial,
  the request it builds, and the loop that copies the streamed answer to the writer.
- `Registry` (registry.dfy): the model table, the first-match lookup behind `NewLLM`, the
  default model and the `-m list` listing.
- `Cli` (cli.dfy): `main` from the `-m list` check to the final newline, with the exit status.
- `Wrappers` (wrappers.dfy): `Option` and `Result`.

Prompt texts, JSON parsing, the vendor SDKs and the network are inputs to the model:

- the rendered prompts are given strings (`Prompts`);
- `IsJSONSchema` and the schema parsers are function parameters;
- a vendor stream is a given sequence of chunks, optionally ending in an error;
- a client-construction failure is a given `Option<string>`.

## Model

| member | source | states |
|---|---|---|
| Llawk.ClassifyFormat | main.go:185-198 | `text` gives "plain text" and `json` gives "JSON", both with no schema. Any other flag is accepted exactly when the schema check accepts it; it then gives "JSON Schema" with the flag text as schema, and otherwise fails with "Unsupported format". A schema is set only in the schema case. |
| Llawk.Error.Message | main.go:84 | The error texts of main.go:84 and 195, gemini.go:49, 63 and 85, openai.go:36 and 69, and ollama.go:49, 58 and 69. A wrapped cause comes last and unchanged, a stream error from OpenAI is printed as it is, and the rejected flag or model and format appear in their messages. |
| Llawk.ClassifyThenFlag | main.go:185-198 | An accepted flag can be recovered from its format choice, so classification loses nothing. |
| Llawk.FlagThenClassify | main.go:185-198 | Every well-formed format choice is produced by its own flag, except a schema whose text is exactly `text` or `json`. |
| Output.Terminated | main.go:263-265 | The text left behind always ends in a newline. It is the text itself when that already ends in one, and otherwise the text plus exactly one newline. |
| Output.TerminatedIdempotent | main.go:263-265 | Terminating an already terminated text adds nothing. |
| Output.ConcatAppend | main.go:110-115 | Writing two runs of chunks yields the concatenation of both runs. |
| Output.EndsInNewlineAppend | main.go:111-113 | Whether a text ends in a newline is decided by its last non-empty chunk. |
| Output.Landed | main.go:114 | A sink with k successful writes left takes exactly the first k pieces, or all pieces if there are fewer. A sink that never fails takes all of them. |
| Output.LeftAfter | main.go:114 | Each write call uses up one successful write, stopping at zero. |
| Output.LandedAppend | main.go:114 | Two runs of writes land as the first run, followed by what the second run lands on the sink the first run left. |
| Output.WriteRunsCompose | main.go:114 | Tracing, landing and remaining writes all compose across two runs. |
| Output.LandedSnoc | main.go:114 | One more piece lands exactly when the sink still had a successful write left. |
| Output.Sink.Write | main.go:114 | A write either stores all of `p` and returns its length, or stores nothing and returns the sink's fault. It succeeds exactly when the sink is healthy, and it uses up one write. |
| Output.NewLineTracer.constructor | main.go:258 | A new tracer has traced nothing and reports no newline. |
| Output.NewLineTracer.Write | main.go:110-115 | A non-empty write sets `hasNewLine` to whether its last byte is a newline, and an empty write leaves it unchanged. The bytes go to the sink unchanged, and the sink's result is returned. The invariant "hasNewLine iff the traced text ends in a newline" is kept. |
| Output.NewLineTracer.WriteAll | gemini.go:67-71 | Each piece is written in turn and errors are ignored, as `fmt.Fprint` callers do. All pieces are traced, and those before the sink's first failure land. |
| Schema.TypeOf | gemini.go:108-123 | A tag maps to `TypeUnspecified` exactly when it is not one of string, number, integer, boolean, array or object. This includes the empty tag. |
| Schema.TagOf | gemini.go:108-123 | The inverse mapping: a known type gives a known tag. |
| Schema.TypeTagRoundTrip | gemini.go:108-123 | Mapping a tag to a type and back gives the canonical tag. Mapping a type to a tag and back gives the same type. |
| Schema.ToGemini | gemini.go:105-144 | The translation: the type comes from TypeOf. Format, description, nullable, enum and required are copied verbatim. Properties are nil exactly when the source's are, and otherwise have the same key set, each value being the translation of the matching child. Items are nil exactly when the source's are, and otherwise are the translated items. The recursion terminates. |
| Schema.RoundTrip | gemini.go:105-144 | Translating back recovers the source tree with its unknown tags made empty, so nothing but the tag spelling is lost. |
| Schema.CanonicalFixesCanonicalTrees | gemini.go:108-123 | Canonicalising changes a tree exactly when some tag in it is unknown and non-empty. |
| Schema.TranslationInjective | gemini.go:105-144 | Two trees with only canonical tags translate equally only if they are equal. |
| OpenAI.Dial | openai.go:78-83 | Dialing never fails and keeps the model name unchanged. |
| OpenAI.Close | openai.go:18-20 | Closing always returns nil. |
| OpenAI.SelectFormat | openai.go:23-44 | It fails exactly for "JSON Schema" with an unparsable schema, giving "Invalid schema" with the parse error. Otherwise exactly one variant is set for each of the three formats and none for any other format. The variants are Type "text" for plain text, Type "json_type" for JSON, and Name "Output", strict, Type "json_schema" with the parsed schema. |
| OpenAI.AttemptedLanded | openai.go:65-71 | Stopping after the failing write loses nothing that would have landed. With no failure, every delta lands. |
| OpenAI.FailsAt | openai.go:65-71 | The i-th write fails exactly when the sink has no successful write left after i writes. |
| OpenAI.WriteDeltas | openai.go:65-71 | Deltas are written in arrival order up to and including the first failed write, which ends the loop with its error. The traced text, the landed text and the remaining sink writes follow from that. |
| OpenAI.Invoke | openai.go:22-74 | An invalid schema returns before any request and touches nothing. Otherwise the request carries the user prompt as input, the model, the system prompt as instructions, truncation "auto" and the selected format. It sets temperature 0 unless the model is exactly "o4-mini" or "o3". The deltas are written as in WriteDeltas. A failed write gives "Failed to write chunk"; otherwise the stream's own error is returned unwrapped. |
| Gemini.Dial | gemini.go:81-92 | Dialing fails exactly when client construction fails, giving "Failed to create client". Otherwise the model name is kept. |
| Gemini.MimeType | gemini.go:38-45 | "plain text" gives text/plain, and "JSON" and "JSON Schema" give application/json. Any other format leaves the MIME type unset. |
| Gemini.TextsOf | gemini.go:67-71 | Only text parts are written. If all parts are text, every one is written in order; if none are, nothing is written. |
| Gemini.TextsOfAppend | gemini.go:67-71 | Texts keep their order across a split content. |
| Gemini.ResponseTexts | gemini.go:65-72 | A first candidate with nil content contributes nothing. Otherwise only text parts of the first candidate are written. |
| Gemini.FirstCandidateOnly | gemini.go:65 | Candidates after the first never reach the writer. |
| Gemini.FirstEmpty | gemini.go:65 | The first response without candidates (where `Candidates[0]` fails) lies within the stream. |
| Gemini.FirstEmptyIsFirst | gemini.go:65 | No earlier response lacks candidates. |
| Gemini.StreamTextsStep | gemini.go:57-73 | Each further response appends its texts after the earlier ones. |
| Gemini.WriteResponses | gemini.go:57-73 | The loop writes the texts of every response before the first one without candidates. It stops there with the index error. |
| Gemini.Invoke | gemini.go:24-76 | An unparsable schema returns "Invalid schema" before any request and touches nothing. Otherwise the request has temperature 0, and the code-execution tool unless the model is exactly "gemini-2.0-flash-lite". Its MIME type comes from MimeType, and its schema, in the schema case only, is the translation of the parsed schema. Texts are written up to the first response without candidates, which gives the index error. A stream error gives "Failed to generate content". |
| Ollama.TrimPrefix | ollama.go:73 | One leading "ollama:" is removed. A name without that prefix is kept unchanged. |
| Ollama.TrimPrefixRoundTrip | ollama.go:73 | Trimming undoes prefixing for every name. |
| Ollama.Dial | ollama.go:66-76 | Dialing fails exactly when client construction fails, giving "Failed to create Ollama client". Otherwise the stored model is the trimmed name. |
| Ollama.Close | ollama.go:18-20 | Closing always returns nil. |
| Ollama.RawFormat | ollama.go:41-50 | "plain text" gives no format, "JSON" the raw `"json"`, and "JSON Schema" the schema text verbatim and unparsed. Any other format gives "Model <m> does not support format <f>". |
| Ollama.Invoke | ollama.go:22-61 | An unsupported format returns before any request and touches nothing. Otherwise the request carries exactly two messages, system then user, with streaming on and the raw format. Every response's content is written in callback order with write errors ignored. A chat error gives "Failed to generate content". |
| Registry.Names | main.go:91-103 | The names listed are exactly the table's names. |
| Registry.LookupFrom | main.go:79-83 | The first entry at or after a position that accepts the model, or none if no such entry exists. |
| Registry.Accepts | main.go:80 | An entry without a matcher accepts exactly its own name. The Ollama entry also accepts every model that starts with its prefix. |
| Registry.Lookup | main.go:79-83 | The first entry in declaration order whose name equals the model or whose matcher accepts it. There is none exactly when no entry accepts. |
| Registry.Dial | main.go:81 | Dispatches to the entry's dialer. The OpenAI dialer never fails, and the Google and Ollama dialers fail exactly when client construction fails. |
| Registry.NewLLM | main.go:78-85 | Scans the table in order and dials the entry Lookup picks. With no such entry it returns "Unknown model" and dials nothing: the result does not depend on the client outcome. |
| Registry.NamesDistinct | main.go:91-103 | No two entries share a name. |
| Registry.ListedNamesResolve | main.go:78-103 | Every listed name, "ollama:(model name)" included, resolves to its own entry. |
| Registry.OllamaPrefixResolves | main.go:78-102 | Every model starting with "ollama:" resolves to the Ollama entry, whatever follows the prefix. |
| Registry.UnknownModels | main.go:80-84 | A model is unknown exactly when it is not a listed name and does not start with "ollama:". |
| Registry.RegisteredModelsSettings | main.go:91-103 | No registered OpenAI model is exempt from temperature 0, and no registered Google model goes without code execution. |
| Registry.DefaultModel | main.go:19-28 | The default is LLAWK_MODEL when that is set and non-empty, and "gpt-4o-mini" otherwise. |
| Registry.BuiltinDefaultResolves | main.go:19-97 | The built-in default resolves to an OpenAI entry. |
| Registry.ListModels | main.go:163-173 | The heading, then one line per entry in table order: two spaces and the name, with " (default)" on the default model. |
| Registry.MarkedLine | main.go:166-170 | A listing line carries the mark exactly when its entry is the default model. |
| Registry.ListLine | main.go:166-170 | A listing line is two spaces, then the name, then " (default)" only for the default model, as `fmt.Println(" ", name, "(default)")` spaces it. |
| Registry.DefaultMarkedOnce | main.go:163-173 | At most one line is marked, and one is marked exactly when the default model is in the table. |
| Cli.FinishLine | main.go:263-265 | A newline goes to the output exactly when the tracer did not see one last, which includes the case where nothing was written. |
| Cli.OpenAICleanRun | openai.go:58-73 | With a known format, a sink that never fails and a clean end of stream, the OpenAI backend succeeds and hands over every delta. |
| Cli.GeminiCleanRun | gemini.go:57-75 | With a usable schema, every response carrying a candidate, and a clean end of stream, the Gemini backend succeeds and hands over the texts of every response. |
| Cli.SuccessMeansCleanStream | main.go:259-262 | A backend run returns no error only if its stream ended cleanly. For OpenAI, no write failed either; for Gemini, every response had a candidate. |
| Cli.ExitStatus | main.go:259-261 | Status 0 exactly on success, and 2 exactly for the index panic Go's runtime raises. Every error main reports gives 1. |
| Cli.InvokeOpenAI | main.go:259 | The OpenAI backend behind the tracer hands over the deltas up to the first failed write, and returns the wrapped write error, else the stream error. The output gains exactly the deltas that land before the first failed write, and its remaining writes drop by the writes attempted. Against a sink that never fails, all of it lands. |
| Cli.InvokeGemini | main.go:259 | The Gemini backend behind the tracer hands over the texts up to the first response without candidates. It returns the schema, index or stream error. The output gains the texts that land before the sink fails, and its remaining writes drop by one per text. Against a sink that never fails, all of it lands. |
| Cli.InvokeOllama | main.go:259 | The Ollama backend behind the tracer hands over every content and returns the format or chat error. The output gains the contents that land before the sink fails, and its remaining writes drop by one per content. Against a sink that never fails, all of it lands. |
| Cli.InvokeBackend | main.go:259 | The backend NewLLM chose hands over its text, leaves the output in the state that backend leaves it, and returns its error, as that backend does. |
| Cli.Run | main.go:163-266 | `-m list` prints the heading and one ListLine per entry for the default model, exits 0, and touches the output not at all. Otherwise a rejected format, an unknown model or a failed dial reports its error and writes nothing. When the dial succeeds, the text handed over, the error and what lands in the output are those of the chosen backend on the built request. After a successful run whose text does not end in a newline, one more newline is written, and it lands unless the output has no successful write left. The exit status is 0 exactly on success and 2 for the Gemini index panic. Against a sink that never fails, a successful run leaves that text terminated by exactly one newline where needed, and a failed run leaves it without an added newline. |
| Cli.HelloRun | main.go:185-266 | With `-f text -m gpt-4o`, a stream sending "hi" and a clean end, into an empty output that accepts every write, the output is "hi" plus a newline and the exit status is 0. |

## Left out

- Prompt rendering (main.go:30-70): it uses embedded template files and the wall clock. The prompts are given strings.
- JSON parsing (`IsJSONSchema`, the `json.Unmarshal` calls in gemini.go and openai.go): a library call, passed in as a function. Decoding a schema text into a `JSONSchema` tree is likewise abstract.
- Vendor SDK clients, contexts and the network: streams, chat callbacks and client-construction errors are given values.
- Flag parsing, usage text, the argument-count check, reading the input and creating the output file (main.go:122-162, 175-183, 207-245): I/O plumbing. Their results enter `Cli.Run` as the `base` request and its other parameters. The `-m list` branch (main.go:163-173) is modelled by `Registry.ListModels` and `Cli.Run`.
- Verbose diagnostics (main.go:247-256): output to stderr only.
- Temperature is recorded only as "set to 0", not as a float value.
- The `Stream` field given to `OpenAIDialer` in the table (main.go:96-98) is not carried. `OpenAIDialer` is declared with no fields (openai.go:76), so the field has no effect in this code.
- GoogleLLM.Close (gemini.go:20-22) closes the SDK client, which is not modelled.
- The deferred `llm.Close()` in main is not modelled. It runs on a normal return and while a panic unwinds, but not after `os.Exit`.
- anthropic.go: `AnthropicDialer` is not registered in the model table, so it is unreachable.
- Output.Sink.Write: a write stores all of its bytes or none of them. Short writes are not modelled.
- Gemini.Invoke: a response without candidates makes the Go code panic. The model returns it as the `IndexOutOfRange` error instead of aborting the process. `Cli.Run` gives it exit status 2, as Go's runtime does for an unrecovered panic. The panic message and goroutine trace on stderr are not modelled.
- Schema: nil and empty `enum`/`required` lists are not told apart.
