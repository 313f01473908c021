/**
 * The model table of main.go and the operations on it: the first-match lookup
 * behind NewLLM, the default model and the `-m list` listing
 * (main.go:19-28, 78-103, 163-173).
 */
module Registry {
  import opened Wrappers
  import opened Llawk
  import OpenAI
  import Gemini
  import Ollama

  /** Which LLMDialer an entry holds. */
  datatype Dialer = OpenAIDialer | GoogleDialer | OllamaDialer

  /** An entry's Matcher: none, or the `strings.HasPrefix` test of main.go:102. */
  datatype Matcher = NoMatcher | PrefixMatcher(prefix: string)

  datatype ModelEntry = ModelEntry(name: string, dialer: Dialer, matcher: Matcher)

  /** The `models` table (main.go:91-103), in declaration order. */
  const Models: seq<ModelEntry> := [
    ModelEntry("gpt-4o", OpenAIDialer, NoMatcher),
    ModelEntry("gpt-4o-mini", OpenAIDialer, NoMatcher),
    ModelEntry("o1", OpenAIDialer, NoMatcher),
    ModelEntry("gemini-1.5-flash", GoogleDialer, NoMatcher),
    ModelEntry("gemini-1.5-pro", GoogleDialer, NoMatcher),
    ModelEntry("gemini-2.0-flash-exp", GoogleDialer, NoMatcher),
    ModelEntry("ollama:(model name)", OllamaDialer, PrefixMatcher(Ollama.Prefix))
  ]

  /** The position of the Ollama entry in the table. */
  const OllamaEntry: nat := 6

  /** The names the table lists. */
  function Names(): (names: set<string>)
    ensures forall i :: 0 <= i < |Models| ==> Models[i].name in names
    ensures forall n :: n in names ==> exists i :: 0 <= i < |Models| && Models[i].name == n
  {
    set i | 0 <= i < |Models| :: Models[i].name
  }

  /** The test of main.go:80: the name is equal, or the matcher accepts the model. */
  function Accepts(e: ModelEntry, model: string): (accepted: bool)
    ensures e.matcher.NoMatcher? ==> (accepted <==> e.name == model)
    ensures e.matcher.PrefixMatcher? ==>
      (accepted <==> e.name == model ||
                     (|model| >= |e.matcher.prefix| && model[..|e.matcher.prefix|] == e.matcher.prefix))
  {
    e.name == model || (e.matcher.PrefixMatcher? && e.matcher.prefix <= model)
  }

  /** The first entry at or after `from` that accepts `model`. */
  function LookupFrom(model: string, from: nat): (r: Option<nat>)
    requires from <= |Models|
    ensures r.Some? ==> from <= r.value < |Models| && Accepts(Models[r.value], model)
    ensures r.Some? ==> forall j :: from <= j < r.value ==> !Accepts(Models[j], model)
    ensures r.None? ==> forall j :: from <= j < |Models| ==> !Accepts(Models[j], model)
    decreases |Models| - from
  {
    if from == |Models| then None
    else if Accepts(Models[from], model) then Some(from)
    else LookupFrom(model, from + 1)
  }

  /** The entry NewLLM picks: the first in declaration order that accepts `model`. */
  function Lookup(model: string): (r: Option<nat>)
    ensures r.Some? ==> r.value < |Models| && Accepts(Models[r.value], model)
    ensures r.Some? ==> forall j :: 0 <= j < r.value ==> !Accepts(Models[j], model)
    ensures r.None? <==> forall j :: 0 <= j < |Models| ==> !Accepts(Models[j], model)
  {
    LookupFrom(model, 0)
  }

  /** The backend instance a dialer returns. */
  datatype LLM =
    | OpenAIModel(openai: OpenAI.OpenAILLM)
    | GoogleModel(google: Gemini.GoogleLLM)
    | OllamaModel(ollama: Ollama.OllamaLLM)

  /** `m.Dialer.Dial(model)`. `clientErr` is the outcome of constructing the vendor client,
      which the OpenAI dialer never looks at. */
  function Dial(d: Dialer, model: string, clientErr: Option<string>): (r: Result<LLM, Error>)
    ensures d == OpenAIDialer ==> r == Ok(OpenAIModel(OpenAI.OpenAILLM(model)))
    ensures d == GoogleDialer ==> r.Ok? == clientErr.None? && (r.Ok? ==> r.value == GoogleModel(Gemini.GoogleLLM(model)))
    ensures d == OllamaDialer ==>
      r.Ok? == clientErr.None? && (r.Ok? ==> r.value == OllamaModel(Ollama.OllamaLLM(Ollama.TrimPrefix(model))))
  {
    match d
    case OpenAIDialer =>
      Ok(OpenAIModel(OpenAI.Dial(model).value))
    case GoogleDialer =>
      var dialed := Gemini.Dial(model, clientErr);
      if dialed.Ok? then Ok(GoogleModel(dialed.value)) else Err(dialed.error)
    case OllamaDialer =>
      var dialed := Ollama.Dial(model, clientErr);
      if dialed.Ok? then Ok(OllamaModel(dialed.value)) else Err(dialed.error)
  }

  /**
   * NewLLM (main.go:78-85): scans the table in declaration order and dials the first entry
   * that accepts the model; with no such entry it returns "Unknown model" and dials nothing.
   */
  method NewLLM(model: string, clientErr: Option<string>) returns (r: Result<LLM, Error>)
    ensures Lookup(model).None? ==> r == Err(UnknownModel(model))
    ensures Lookup(model).Some? ==> r == Dial(Models[Lookup(model).value].dialer, model, clientErr)
  {
    var i := 0;
    while i < |Models|
      invariant 0 <= i <= |Models|
      invariant forall j :: 0 <= j < i ==> !Accepts(Models[j], model)
    {
      var m := Models[i];
      if m.name == model || (m.matcher.PrefixMatcher? && m.matcher.prefix <= model) {
        return Dial(m.dialer, model, clientErr);
      }
      i := i + 1;
    }
    return Err(UnknownModel(model));
  }

  /** No two entries share a name. */
  lemma NamesDistinct()
    ensures forall i, j :: 0 <= i < j < |Models| ==> Models[i].name != Models[j].name
  {
  }

  /** Every listed name, the literal "ollama:(model name)" included, resolves to its own entry. */
  lemma ListedNamesResolve(i: nat)
    requires i < |Models|
    ensures Lookup(Models[i].name) == Some(i)
  {
    NamesDistinct();
    var name := Models[i].name;
    forall j | 0 <= j < i
      ensures !Accepts(Models[j], name)
    {
      assert Models[j].matcher == NoMatcher;
    }
    assert Accepts(Models[i], name);
  }

  /** Every model name with the `ollama:` prefix goes to the Ollama entry, whatever follows. */
  lemma OllamaPrefixResolves(model: string)
    requires Ollama.Prefix <= model
    ensures Lookup(model) == Some(OllamaEntry)
    ensures Models[OllamaEntry].dialer == OllamaDialer
  {
    forall j | 0 <= j < OllamaEntry
      ensures !Accepts(Models[j], model)
    {
      assert Models[j].matcher == NoMatcher;
      assert model[0] == 'o' && |model| >= |Ollama.Prefix|;
      assert Models[j].name[0] != 'o' || |Models[j].name| < |Ollama.Prefix|;
    }
    assert Accepts(Models[OllamaEntry], model);
  }

  /** A model is unknown exactly when it is not a listed name and lacks the `ollama:` prefix. */
  lemma UnknownModels(model: string)
    ensures Lookup(model).None? <==> model !in Names() && !(Ollama.Prefix <= model)
  {
    if Ollama.Prefix <= model {
      OllamaPrefixResolves(model);
    } else if model in Names() {
      var i :| 0 <= i < |Models| && Models[i].name == model;
      assert Accepts(Models[i], model);
    }
  }

  /** Every OpenAI entry gets temperature 0 and every Google entry the code-execution tool:
      the exception lists name no registered model. */
  lemma RegisteredModelsSettings()
    ensures forall i :: 0 <= i < |Models| && Models[i].dialer == OpenAIDialer ==>
      Models[i].name !in OpenAI.NoTemperatureModels
    ensures forall i :: 0 <= i < |Models| && Models[i].dialer == GoogleDialer ==>
      Models[i].name != Gemini.LiteModel
  {
  }

  /** The built-in default model (main.go:20). */
  const BuiltinDefault: string := "gpt-4o-mini"

  /** DEFAULT_MODEL after main.go's init (main.go:19-28): LLAWK_MODEL when set and non-empty. */
  function DefaultModel(llawkModel: Option<string>): (m: string)
    ensures llawkModel.Some? && llawkModel.value != "" ==> m == llawkModel.value
    ensures llawkModel.None? || llawkModel.value == "" ==> m == BuiltinDefault
  {
    if llawkModel.Some? && llawkModel.value != "" then llawkModel.value else BuiltinDefault
  }

  /** Without LLAWK_MODEL the default resolves to the OpenAI entry of the same name. */
  lemma BuiltinDefaultResolves()
    ensures Lookup(DefaultModel(None)) == Some(1)
    ensures Models[1].dialer == OpenAIDialer
  {
    ListedNamesResolve(1);
  }

  /** The suffix the listing puts after the default model's name. */
  const DefaultMark: string := " (default)"

  /** One line of the listing (main.go:166-170): two spaces, the name, and the mark on the
      default model. */
  function ListLine(e: ModelEntry, defaultModel: string): (line: string)
    ensures |line| == 2 + |e.name| + if e.name == defaultModel then |DefaultMark| else 0
    ensures line[..2] == "  " && line[2..2 + |e.name|] == e.name
    ensures e.name == defaultModel ==> line[2 + |e.name|..] == DefaultMark
  {
    if e.name == defaultModel then "  " + e.name + DefaultMark else "  " + e.name
  }

  /** Whether a listing line carries the default mark. */
  predicate Marked(line: string) {
    |line| >= |DefaultMark| && line[|line| - |DefaultMark|..] == DefaultMark
  }

  /** `-m list` (main.go:163-173): the heading, then one line per entry in table order. */
  method ListModels(defaultModel: string) returns (lines: seq<string>)
    ensures |lines| == |Models| + 1 && lines[0] == "Available models:"
    ensures forall i :: 0 <= i < |Models| ==> lines[i + 1] == ListLine(Models[i], defaultModel)
  {
    lines := ["Available models:"];
    for i := 0 to |Models|
      invariant |lines| == i + 1 && lines[0] == "Available models:"
      invariant forall j :: 0 <= j < i ==> lines[j + 1] == ListLine(Models[j], defaultModel)
    {
      var m := Models[i];
      if m.name == defaultModel {
        lines := lines + ["  " + m.name + DefaultMark];
      } else {
        lines := lines + ["  " + m.name];
      }
    }
  }

  /** A line is marked exactly when its entry is the default model. */
  lemma MarkedLine(i: nat, defaultModel: string)
    requires i < |Models|
    ensures Marked(ListLine(Models[i], defaultModel)) <==> Models[i].name == defaultModel
  {
    var line := ListLine(Models[i], defaultModel);
    if Models[i].name == defaultModel {
      assert line[|line| - |DefaultMark|..] == DefaultMark;
    } else {
      var name := Models[i].name;
      assert line == "  " + name;
      assert line[|line| - 1] == name[|name| - 1];
      assert line[|line| - 2] == name[|name| - 2];
      assert name[|name| - 1] != ')' || name[|name| - 2] != 't';
    }
  }

  /** The listing marks at most one entry, and one exactly when the default model is listed. */
  lemma DefaultMarkedOnce(defaultModel: string)
    ensures forall i, j ::
      (0 <= i < |Models| && 0 <= j < |Models| &&
       Marked(ListLine(Models[i], defaultModel)) && Marked(ListLine(Models[j], defaultModel))) ==> i == j
    ensures (exists i :: 0 <= i < |Models| && Marked(ListLine(Models[i], defaultModel))) <==> defaultModel in Names()
  {
    NamesDistinct();
    forall i | 0 <= i < |Models|
      ensures Marked(ListLine(Models[i], defaultModel)) <==> Models[i].name == defaultModel
    {
      MarkedLine(i, defaultModel);
    }
  }
}
