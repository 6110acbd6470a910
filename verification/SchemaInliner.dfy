// app/llm/gemini.py, gemini_schema: a JSON Schema with `$defs` made self-contained.
module SchemaInliner {
  import opened Wrappers
  import opened Json

  const PREFIX := "#/$defs/"

  datatype Failure =
    | Recursive(name: string)
    | UnknownDefinition(name: string)
    | NotAnObject(name: string)

  type Definitions = map<string, Json>

  /** The definition a node refers to, if its `$ref` is a string under `#/$defs/`. */
  function DefinitionName(ms: Members): Option<string> {
    match Get(ms, "$ref")
    case Some(Str(ref)) => if PREFIX <= ref then Some(ref[|PREFIX|..]) else None
    case _ => None
  }

  /** How many definitions are not on the path yet. */
  function Unseen(defs: Definitions, seen: seq<string>): nat {
    |set name | name in defs && name !in seen|
  }

  lemma UnseenShrinks(defs: Definitions, seen: seq<string>, name: string)
    requires name in defs && name !in seen
    ensures Unseen(defs, seen + [name]) < Unseen(defs, seen)
  {
    var before := set n | n in defs && n !in seen;
    var after := set n | n in defs && n !in seen + [name];
    assert after == before - {name};
  }

  // ---------- the pass ----------

  function Resolve(defs: Definitions, node: Json, seen: seq<string>): (r: Result<Json, Failure>)
    ensures r.Ok? && node.Obj? ==> r.value.Obj?
    ensures r.Ok? && node.Arr? ==> r.value.Arr?
    ensures r.Ok? && !node.Obj? && !node.Arr? ==> r.value == node
    decreases Unseen(defs, seen), node, 0
  {
    match node
    case Arr(items) =>
      var out :- ResolveItems(defs, items, seen);
      Ok(Arr(out))
    case Obj(ms) =>
      (match DefinitionName(ms)
       case Some(name) =>
         if name in seen then Err(Recursive(name))
         else if name !in defs then Err(UnknownDefinition(name))
         else if !defs[name].Obj? then Err(NotAnObject(name))
         else
           UnseenShrinks(defs, seen, name);
           Resolve(defs, Obj(Unfolding(defs, ms, name)), seen + [name])
       case None =>
         var out :- ResolveMembers(defs, ms, seen);
         Ok(Obj(out)))
    case _ => Ok(node)
  }

  /** `{**definitions[name], **siblings}` */
  function Unfolding(defs: Definitions, ms: Members, name: string): Members
    requires name in defs && defs[name].Obj?
  {
    Merge(defs[name].members, Without(ms, "$ref"))
  }

  function ResolveItems(defs: Definitions, items: Items, seen: seq<string>): Result<Items, Failure>
    decreases Unseen(defs, seen), items, 0
  {
    match items
    case NoItems => Ok(NoItems)
    case Item(head, tail) =>
      var h :- Resolve(defs, head, seen);
      var t :- ResolveItems(defs, tail, seen);
      Ok(Item(h, t))
  }

  /** The members of `properties`: their keys are data, so none is dropped. */
  function ResolveProperties(defs: Definitions, ms: Members, seen: seq<string>): (r: Result<Members, Failure>)
    ensures r.Ok? ==> KeyList(r.value) == KeyList(ms) && Keys(r.value) == Keys(ms)
    decreases Unseen(defs, seen), ms, 0
  {
    match ms
    case NoMembers => Ok(NoMembers)
    case Member(key, value, rest) =>
      var v :- Resolve(defs, value, seen);
      var others :- ResolveProperties(defs, rest, seen);
      Ok(Member(key, v, others))
  }

  function ResolveMembers(defs: Definitions, ms: Members, seen: seq<string>): (r: Result<Members, Failure>)
    decreases Unseen(defs, seen), ms, 0
  {
    match ms
    case NoMembers => Ok(NoMembers)
    case Member(key, value, rest) =>
      if key == "default" || key == "required" then
        ResolveMembers(defs, rest, seen)
      else if key == "properties" && value.Obj? then
        var props :- ResolveProperties(defs, value.members, seen);
        var others :- ResolveMembers(defs, rest, seen);
        Ok(Member(key, Obj(props), Member("required", Arr(KeyList(value.members)), others)))
      else
        var v :- Resolve(defs, value, seen);
        var others :- ResolveMembers(defs, rest, seen);
        Ok(Member(key, v, others))
  }

  /** The definitions of a schema: its top-level `$defs`, popped. */
  function DefinitionsOf(ms: Members): Definitions {
    match ms
    case NoMembers => map[]
    case Member(key, value, rest) => DefinitionsOf(rest)[key := value]
  }

  /** The definitions a schema carries in `$defs`. */
  function Carried(schema: Members): Definitions {
    match Get(schema, "$defs")
    case Some(Obj(ms)) => DefinitionsOf(ms)
    case _ => map[]
  }

  function GeminiSchema(schema: Members): Result<Json, Failure> {
    Resolve(Carried(schema), Obj(Without(schema, "$defs")), [])
  }

  // ---------- what a schema means ----------

  // The keywords that constrain a value; every other keyword is an annotation.
  datatype Keyword =
    | Reference | AnyOf | OneOf | AllOf | EachItem | Properties | AdditionalProperties | Required
    | Scalar
    | Annotation

  const SCALARS: set<string> :=
    {"type", "enum", "const", "minimum", "maximum", "exclusiveMinimum", "exclusiveMaximum", "multipleOf", "minLength",
     "maxLength", "pattern", "format", "minItems", "maxItems", "uniqueItems", "minProperties", "maxProperties"}

  function KeywordOf(key: string): Keyword {
    match key
    case "$ref" => Reference
    case "anyOf" => AnyOf
    case "oneOf" => OneOf
    case "allOf" => AllOf
    case "items" => EachItem
    case "properties" => Properties
    case "additionalProperties" => AdditionalProperties
    case "required" => Required
    case _ =>
      if key in SCALARS then Scalar else Annotation
  }

  predicate IsAssertion(key: string) {
    KeywordOf(key) != Annotation
  }

  predicate HasType(name: Json, v: Json) {
    match name
    case Str(t) =>
      if t == "null" then v.Null? else if t == "boolean" then v.Bool?
      else if t == "number" then v.Num? else if t == "integer" then v.Num? && v.n == v.n.Floor as real
      else if t == "string" then v.Str? else if t == "array" then v.Arr? else t == "object" && v.Obj?
    case _ => false
  }

  /** What `pattern` and `format` accept: their argument, then the string. */
  datatype Judge = Judge(matches: (string, string) -> bool, fits: (string, string) -> bool)

  /**
   * How a schema is read. Strictly, an object must also carry each property declared where it is checked; `required`
   * may be ignored; and what stands beside a reference may replace the definition's own keywords.
   */
  datatype Reading = Reading(judge: Judge, strict: bool, required: bool, replace: bool)

  /** As the standard says. */
  function AsIs(j: Judge): Reading {
    Reading(j, false, true, false)
  }

  function Strict(j: Judge): Reading {
    Reading(j, true, true, false)
  }

  /** Strictly, by what `properties` declares and not by what `required` says. */
  function Declared(j: Judge): Reading {
    Reading(j, true, false, false)
  }

  /** So too, and with each reference unfolded: keywords beside it replace the definition's own. */
  function Unfolded(j: Judge): Reading {
    Reading(j, true, false, true)
  }

  /** The object definition a node refers to. */
  function Target(defs: Definitions, ms: Members): Option<string> {
    match DefinitionName(ms)
    case Some(name) => if name in defs && defs[name].Obj? then Some(name) else None
    case None => None
  }

  predicate NoRepeats(items: Items) {
    items.Item? ==> items.head !in Elements(items.tail) && NoRepeats(items.tail)
  }

  predicate IsMultiple(n: real, of: real) {
    of != 0.0 ==> (n / of).Floor as real == n / of
  }

  /** The keywords that compare the value with their argument and never look into a subschema. */
  predicate ScalarHolds(judge: Judge, key: string, arg: Json, v: Json) {
    match key
    case "type" => HasType(arg, v) || (arg.Arr? && exists t | t in Elements(arg.items) :: HasType(t, v))
    case "enum" => arg.Arr? ==> v in Elements(arg.items)
    case "const" => v == arg
    case "minimum" => arg.Num? && v.Num? ==> v.n >= arg.n
    case "maximum" => arg.Num? && v.Num? ==> v.n <= arg.n
    case "exclusiveMinimum" => arg.Num? && v.Num? ==> v.n > arg.n
    case "exclusiveMaximum" => arg.Num? && v.Num? ==> v.n < arg.n
    case "multipleOf" => arg.Num? && v.Num? ==> IsMultiple(v.n, arg.n)
    case "minLength" => arg.Num? && v.Str? ==> |v.s| as real >= arg.n
    case "maxLength" => arg.Num? && v.Str? ==> |v.s| as real <= arg.n
    case "pattern" => arg.Str? && v.Str? ==> judge.matches(arg.s, v.s)
    case "format" => arg.Str? && v.Str? ==> judge.fits(arg.s, v.s)
    case "minItems" => arg.Num? && v.Arr? ==> Length(v.items) as real >= arg.n
    case "maxItems" => arg.Num? && v.Arr? ==> Length(v.items) as real <= arg.n
    case "uniqueItems" => arg.Bool? && arg.b && v.Arr? ==> NoRepeats(v.items)
    case "minProperties" => arg.Num? && v.Obj? ==> |Keys(v.members)| as real >= arg.n
    case "maxProperties" => arg.Num? && v.Obj? ==> |Keys(v.members)| as real <= arg.n
    case _ => true
  }

  function PropertyNames(node: Members): set<string> {
    match Get(node, "properties")
    case Some(Obj(props)) => Keys(props)
    case _ => {}
  }

  ghost predicate HasAll(names: Items, obj: Members) {
    forall s | Str(s) in Elements(names) :: s in Keys(obj)
  }

  /**
   * `v` is valid against `schema`, read this way, with at most `fuel` nested `$ref` followed.
   */
  ghost predicate Sat(reading: Reading, fuel: nat, defs: Definitions, schema: Json, v: Json)
    decreases fuel, schema, 0
  {
    match schema
    case Bool(b) => b
    case Obj(ms) =>
      if reading.replace && Target(defs, ms).Some? then
        fuel > 0 && Sat(reading, fuel - 1, defs, Obj(Unfolding(defs, ms, Target(defs, ms).value)), v)
      else AllHold(reading, fuel, defs, ms, ms, v)
    case _ => true
  }

  ghost predicate AllHold(reading: Reading, fuel: nat, defs: Definitions, ms: Members, node: Members, v: Json)
    decreases fuel, ms, 2
  {
    ms.Member? ==>
      && Holds(reading, fuel, defs, ms.key, ms.value, node, v)
      && AllHold(reading, fuel, defs, ms.rest, node, v)
  }

  ghost predicate Holds(reading: Reading, fuel: nat, defs: Definitions, key: string, arg: Json, node: Members, v: Json)
    decreases fuel, arg, 1
  {
    match KeywordOf(key)
    case Reference =>
      arg.Str? && PREFIX <= arg.s ==>
        var name := arg.s[|PREFIX|..];
        name in defs && fuel > 0 && Sat(reading, fuel - 1, defs, defs[name], v)
    case AnyOf => arg.Arr? ==> Count(reading, fuel, defs, arg.items, v) > 0
    case OneOf => arg.Arr? ==> Count(reading, fuel, defs, arg.items, v) == 1
    case AllOf => arg.Arr? ==> Count(reading, fuel, defs, arg.items, v) == Length(arg.items)
    case EachItem => v.Arr? ==> forall x | x in Elements(v.items) :: Sat(reading, fuel, defs, arg, x)
    case Properties => arg.Obj? && v.Obj? ==> PropertiesHold(reading, fuel, defs, arg.members, v.members)
    case AdditionalProperties =>
      v.Obj? ==>
        forall k | k in Keys(v.members) - PropertyNames(node) :: Sat(reading, fuel, defs, arg, Get(v.members, k).value)
    case Required => reading.required && arg.Arr? && v.Obj? ==> HasAll(arg.items, v.members)
    case Scalar => ScalarHolds(reading.judge, key, arg, v)
    case Annotation => true
  }

  /** How many of the subschemas accept `v`. */
  ghost function Count(reading: Reading, fuel: nat, defs: Definitions, items: Items, v: Json): (c: nat)
    ensures c <= Length(items)
    decreases fuel, items, 0
  {
    match items
    case NoItems => 0
    case Item(head, tail) =>
      (if Sat(reading, fuel, defs, head, v) then 1 else 0) + Count(reading, fuel, defs, tail, v)
  }

  ghost predicate PropertiesHold(reading: Reading, fuel: nat, defs: Definitions, props: Members, obj: Members)
    decreases fuel, props, 0
  {
    props.Member? ==>
      && (match Get(obj, props.key)
          case Some(x) => Sat(reading, fuel, defs, props.value, x)
          case None => !reading.strict)
      && PropertiesHold(reading, fuel, defs, props.rest, obj)
  }

  // ---------- the schemas the pass is meant for ----------

  /** Nothing inside an array or object, so the pass leaves the value alone. */
  ghost predicate Plain(j: Json) {
    match j
    case Arr(items) => forall x | x in Elements(items) :: !x.Arr? && !x.Obj?
    case Obj(_) => false
    case _ => true
  }

  /** Data keywords have plain arguments, as in Pydantic's schemas. */
  ghost predicate Regular(schema: Json)
    decreases schema, 0
  {
    schema.Obj? ==> RegularMembers(schema.members)
  }

  ghost predicate RegularMembers(ms: Members)
    decreases ms, 1
  {
    ms.Member? ==> RegularArgument(ms.key, ms.value) && RegularMembers(ms.rest)
  }

  ghost predicate RegularArgument(key: string, arg: Json)
    decreases arg, 1
  {
    match KeywordOf(key)
    case Scalar => Plain(arg)
    case AnyOf => arg.Arr? ==> RegularItems(arg.items)
    case OneOf => arg.Arr? ==> RegularItems(arg.items)
    case AllOf => arg.Arr? ==> RegularItems(arg.items)
    case EachItem => Regular(arg)
    case AdditionalProperties => Regular(arg)
    case Properties => arg.Obj? ==> RegularProperties(arg.members)
    case Required => true
    case Reference => true
    case Annotation => true
  }

  ghost predicate RegularItems(items: Items)
    decreases items, 0
  {
    items.Item? ==> Regular(items.head) && RegularItems(items.tail)
  }

  ghost predicate RegularProperties(props: Members)
    decreases props, 0
  {
    props.Member? ==> Regular(props.value) && RegularProperties(props.rest)
  }

  ghost predicate RegularDefinitions(defs: Definitions) {
    forall name | name in defs :: Regular(defs[name])
  }
}
