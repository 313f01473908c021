/**
 * The vendor-neutral JSON schema that a `-f` flag is parsed into, the schema
 * tree of the Gemini API, and the translation from the one to the other
 * (gemini.go:94-144).
 */
module Schema {
  import opened Wrappers

  /** gemini.go:94-103. `typeTag` is the JSON `type` member. */
  datatype JSONSchema = JSONSchema(
    typeTag: string,
    format: string,
    description: string,
    nullable: bool,
    enum: seq<string>,
    properties: PropertyMap,
    required: seq<string>,
    items: Option<JSONSchema>)

  /** `map[string]JSONSchema`, which may be nil. */
  datatype PropertyMap = NilMap | Entries(entries: map<string, JSONSchema>)

  /** genai.Type. */
  datatype GeminiType =
    | TypeUnspecified
    | TypeString
    | TypeNumber
    | TypeInteger
    | TypeBoolean
    | TypeArray
    | TypeObject

  /** The part of genai.Schema that the translation fills in. */
  datatype GeminiSchema = GeminiSchema(
    schemaType: GeminiType,
    format: string,
    description: string,
    nullable: bool,
    enum: seq<string>,
    properties: GeminiPropertyMap,
    required: seq<string>,
    items: Option<GeminiSchema>)

  /** `map[string]*genai.Schema`, which may be nil. */
  datatype GeminiPropertyMap = NoProperties | GeminiEntries(entries: map<string, GeminiSchema>)

  /** The six JSON type names that have a Gemini type of their own. */
  const KnownTags: set<string> := {"string", "number", "integer", "boolean", "array", "object"}

  /** The `switch s.Type` of gemini.go:108-123. */
  function TypeOf(tag: string): (t: GeminiType)
    ensures t == TypeUnspecified <==> tag !in KnownTags
  {
    match tag
    case "string" => TypeString
    case "number" => TypeNumber
    case "integer" => TypeInteger
    case "boolean" => TypeBoolean
    case "array" => TypeArray
    case "object" => TypeObject
    case _ => TypeUnspecified
  }

  /** The JSON type name of a Gemini type; the empty name for TypeUnspecified. */
  function TagOf(t: GeminiType): (tag: string)
    ensures t != TypeUnspecified <==> tag in KnownTags
  {
    match t
    case TypeUnspecified => ""
    case TypeString => "string"
    case TypeNumber => "number"
    case TypeInteger => "integer"
    case TypeBoolean => "boolean"
    case TypeArray => "array"
    case TypeObject => "object"
  }

  /** The type name the translation keeps: a known name, or the empty name for any other. */
  function CanonicalTag(tag: string): string {
    if tag in KnownTags then tag else ""
  }

  /** The type mapping is one-to-one on the six known names and forgets every other name. */
  lemma TypeTagRoundTrip(tag: string, t: GeminiType)
    ensures TagOf(TypeOf(tag)) == CanonicalTag(tag)
    ensures TypeOf(TagOf(t)) == t
  {
  }

  /** JSONSchema.GeminiSchema (gemini.go:105-144). */
  function ToGemini(s: JSONSchema): (r: GeminiSchema)
    ensures r.schemaType == TypeOf(s.typeTag)
    ensures r.format == s.format && r.description == s.description
    ensures r.nullable == s.nullable && r.enum == s.enum
    ensures r.required == s.required
    ensures r.properties.NoProperties? <==> s.properties.NilMap?
    ensures r.properties.GeminiEntries? ==>
      r.properties.entries.Keys == s.properties.entries.Keys &&
      forall k :: k in r.properties.entries ==> r.properties.entries[k] == ToGemini(s.properties.entries[k])
    ensures r.items.None? <==> s.items.None?
    ensures r.items.Some? ==> r.items.value == ToGemini(s.items.value)
  {
    GeminiSchema(
      TypeOf(s.typeTag),
      s.format,
      s.description,
      s.nullable,
      s.enum,
      match s.properties
      case NilMap => NoProperties
      case Entries(m) => GeminiEntries(map k | k in m :: ToGemini(m[k])),
      s.required,
      match s.items
      case None => None
      case Some(item) => Some(ToGemini(item)))
  }

  /** The reverse translation, from a Gemini schema tree back to a JSON schema. */
  function FromGemini(g: GeminiSchema): (s: JSONSchema)
  {
    JSONSchema(
      TagOf(g.schemaType),
      g.format,
      g.description,
      g.nullable,
      g.enum,
      match g.properties
      case NoProperties => NilMap
      case GeminiEntries(m) => Entries(map k | k in m :: FromGemini(m[k])),
      g.required,
      match g.items
      case None => None
      case Some(item) => Some(FromGemini(item)))
  }

  /** `s` with every type name that the Gemini API cannot express replaced by the empty name. */
  function Canonical(s: JSONSchema): JSONSchema {
    s.(
      typeTag := CanonicalTag(s.typeTag),
      properties := match s.properties
        case NilMap => NilMap
        case Entries(m) => Entries(map k | k in m :: Canonical(m[k])),
      items := match s.items
        case None => None
        case Some(item) => Some(Canonical(item)))
  }

  /** Every type name in the tree is one of the six known names or empty. */
  ghost predicate TagsCanonical(s: JSONSchema) {
    && (s.typeTag in KnownTags || s.typeTag == "")
    && (s.properties.Entries? ==>
          forall k :: k in s.properties.entries ==> TagsCanonical(s.properties.entries[k]))
    && (s.items.Some? ==> TagsCanonical(s.items.value))
  }

  /**
   * The translation keeps the whole tree: translating back gives the source schema
   * with only its unrecognised type names blanked, at every depth.
   */
  lemma {:induction false} RoundTrip(s: JSONSchema)
    ensures FromGemini(ToGemini(s)) == Canonical(s)
  {
    TypeTagRoundTrip(s.typeTag, TypeUnspecified);
    match s.properties {
      case NilMap =>
      case Entries(m) =>
        forall k | k in m
          ensures FromGemini(ToGemini(m[k])) == Canonical(m[k])
        {
          RoundTrip(m[k]);
        }
        assert FromGemini(ToGemini(s)).properties == Canonical(s).properties;
    }
    match s.items {
      case None =>
      case Some(item) => RoundTrip(item);
    }
  }

  /** Canonical changes exactly the trees with an unrecognised type name somewhere. */
  lemma {:induction false} CanonicalFixesCanonicalTrees(s: JSONSchema)
    ensures Canonical(s) == s <==> TagsCanonical(s)
  {
    match s.properties {
      case NilMap =>
      case Entries(m) =>
        forall k | k in m
          ensures Canonical(m[k]) == m[k] <==> TagsCanonical(m[k])
        {
          CanonicalFixesCanonicalTrees(m[k]);
        }
        if Canonical(s) == s {
          forall k | k in m ensures Canonical(m[k]) == m[k] {
            assert Canonical(s).properties.entries[k] == m[k];
          }
        }
        if TagsCanonical(s) {
          assert Canonical(s).properties.entries == m;
        }
    }
    match s.items {
      case None =>
      case Some(item) => CanonicalFixesCanonicalTrees(item);
    }
  }

  /** On schemas whose type names are all known or empty, the translation loses nothing. */
  lemma TranslationInjective(s1: JSONSchema, s2: JSONSchema)
    requires TagsCanonical(s1) && TagsCanonical(s2)
    ensures ToGemini(s1) == ToGemini(s2) ==> s1 == s2
  {
    RoundTrip(s1);
    RoundTrip(s2);
    CanonicalFixesCanonicalTrees(s1);
    CanonicalFixesCanonicalTrees(s2);
  }
}
