// What inlining keeps.
module SchemaMeaning {
  // What the inliner keeps: a value satisfies its output exactly when it satisfies the original schema, read strictly.

  import opened Wrappers
  import opened Json
  import opened SchemaInliner
  import opened SchemaSiblings

  const NODEFS: Definitions := map[]

  /** `ms` is a tail of the members of `node`. */
  ghost predicate Agrees(ms: Members, node: Members) {
    forall k | k in Keys(ms) :: Get(ms, k) == Get(node, k)
  }

  // ---------- the pass keeps the meaning ----------

  lemma PlainResolves(defs: Definitions, j: Json, seen: seq<string>)
    requires Plain(j)
    ensures Resolve(defs, j, seen) == Ok(j)
  {
    if j.Arr? {
      PlainItemsResolve(defs, j.items, seen);
    }
  }

  lemma {:induction false} PlainItemsResolve(defs: Definitions, items: Items, seen: seq<string>)
    requires forall x | x in Elements(items) :: !x.Arr? && !x.Obj?
    ensures ResolveItems(defs, items, seen) == Ok(items)
  {
    if items.Item? {
      PlainItemsResolve(defs, items.tail, seen);
    }
  }

  lemma PropertyNamesKept(defs: Definitions, ms: Members, seen: seq<string>)
    requires ResolveMembers(defs, ms, seen).Ok?
    ensures PropertyNames(ResolveMembers(defs, ms, seen).value) == PropertyNames(ms)
  {
  }

  lemma KeyListElements(ms: Members)
    ensures forall s: string :: Str(s) in Elements(KeyList(ms)) <==> s in Keys(ms)
  {
  }

  /**
   * Inlining preserves meaning. The output, read as the standard says and without any definition, accepts exactly the
   * values that carry every declared property and satisfy the original with its references unfolded, however deep, but
   * for its `required`.
   */
  lemma {:induction false} ResolveMeaning(j: Judge, defs: Definitions, node: Json, seen: seq<string>, fuel: nat,
                                          v: Json)
    requires RegularDefinitions(defs) && DictDefinitions(defs) && Regular(node) && IsDict(node)
    requires Resolve(defs, node, seen).Ok? && fuel >= Unseen(defs, seen)
    ensures Sat(AsIs(j), 0, NODEFS, Resolve(defs, node, seen).value, v) <==> Sat(Unfolded(j), fuel, defs, node, v)
    decreases Unseen(defs, seen), node, 0
  {
    if node.Obj? {
      var ms := node.members;
      match DefinitionName(ms)
      case Some(name) =>
        ReferenceStep(j, defs, ms, seen, name, fuel, v);
        ResolveMeaning(j, defs, Obj(Unfolding(defs, ms, name)), seen + [name], fuel - 1, v);
      case None =>
        PropertyNamesKept(defs, ms, seen);
        ResolveMembersMeaning(j, defs, ms, seen, fuel, ms, ResolveMembers(defs, ms, seen).value, v);
        MembersStep(j, defs, ms, seen, fuel, v);
    }
  }

  lemma MembersStep(j: Judge, defs: Definitions, ms: Members, seen: seq<string>, fuel: nat, v: Json)
    requires DefinitionName(ms).None? && ResolveMembers(defs, ms, seen).Ok?
    requires var out := ResolveMembers(defs, ms, seen).value;
             AllHold(AsIs(j), 0, NODEFS, out, out, v) <==> AllHold(Unfolded(j), fuel, defs, ms, ms, v)
    ensures Sat(AsIs(j), 0, NODEFS, Resolve(defs, Obj(ms), seen).value, v) <==> Sat(Unfolded(j), fuel, defs, Obj(ms), v)
  {
  }

  /** Following a reference, on both sides. */
  lemma ReferenceStep(j: Judge, defs: Definitions, ms: Members, seen: seq<string>, name: string, fuel: nat, v: Json)
    requires RegularDefinitions(defs) && DictDefinitions(defs) && Regular(Obj(ms)) && MembersAreDicts(ms)
    requires DefinitionName(ms) == Some(name) && Resolve(defs, Obj(ms), seen).Ok? && fuel >= Unseen(defs, seen)
    ensures name in defs && defs[name].Obj? && Unseen(defs, seen + [name]) < Unseen(defs, seen)
    ensures Regular(Obj(Unfolding(defs, ms, name))) && IsDict(Obj(Unfolding(defs, ms, name)))
    ensures Resolve(defs, Obj(ms), seen) == Resolve(defs, Obj(Unfolding(defs, ms, name)), seen + [name])
    ensures Sat(Unfolded(j), fuel, defs, Obj(ms), v)
            == Sat(Unfolded(j), fuel - 1, defs, Obj(Unfolding(defs, ms, name)), v)
  {
    UnseenShrinks(defs, seen, name);
    UnfoldingIsDict(defs, ms, name);
    UnfoldingIsRegular(defs, ms, name);
  }

  lemma UnfoldingIsRegular(defs: Definitions, ms: Members, name: string)
    requires name in defs && defs[name].Obj? && Regular(defs[name]) && RegularMembers(ms)
    ensures RegularMembers(Unfolding(defs, ms, name))
  {
    WithoutKeepsRegular(ms, "$ref");
    MergeKeepsRegular(defs[name].members, Without(ms, "$ref"));
  }

  lemma {:induction false} MergeKeepsRegular(base: Members, over: Members)
    requires RegularMembers(base) && RegularMembers(over)
    ensures RegularMembers(Merge(base, over))
    decreases over
  {
    if over.Member? {
      SetKeepsRegular(base, over.key, over.value);
      MergeKeepsRegular(Set(base, over.key, over.value), over.rest);
    }
  }

  lemma {:induction false} SetKeepsRegular(ms: Members, key: string, value: Json)
    requires RegularArgument(key, value) && RegularMembers(ms)
    ensures RegularMembers(Set(ms, key, value))
  {
    if ms.Member? && ms.key != key {
      SetKeepsRegular(ms.rest, key, value);
    }
  }

  lemma {:induction false} ResolveMembersMeaning(j: Judge, defs: Definitions, ms: Members, seen: seq<string>, fuel: nat,
                                                 node: Members, out: Members, v: Json)
    requires RegularDefinitions(defs) && DictDefinitions(defs) && RegularMembers(ms) && MembersAreDicts(ms)
    requires ResolveMembers(defs, ms, seen).Ok? && fuel >= Unseen(defs, seen)
    requires Agrees(ms, node) && DefinitionName(node).None? && PropertyNames(node) == PropertyNames(out)
    ensures AllHold(AsIs(j), 0, NODEFS, ResolveMembers(defs, ms, seen).value, out, v)
            <==> AllHold(Unfolded(j), fuel, defs, ms, node, v)
    decreases Unseen(defs, seen), ms, 1
  {
    if ms.Member? {
      RestFits(defs, ms, seen, node);
      ResolveMembersMeaning(j, defs, ms.rest, seen, fuel, node, out, v);
      if ms.key == "default" || ms.key == "required" {
        DroppedHead(j, defs, ms, seen, fuel, node, out, v);
      } else if ms.key == "properties" && ms.value.Obj? {
        PropertiesHead(j, defs, ms, seen, fuel, node, out, v);
      } else {
        OtherHead(j, defs, ms, seen, fuel, node, out, v);
      }
    }
  }

  lemma RestFits(defs: Definitions, ms: Members, seen: seq<string>, node: Members)
    requires ms.Member? && RegularMembers(ms) && MembersAreDicts(ms) && ResolveMembers(defs, ms, seen).Ok?
             && Agrees(ms, node)
    ensures RegularMembers(ms.rest) && MembersAreDicts(ms.rest) && ResolveMembers(defs, ms.rest, seen).Ok?
            && Agrees(ms.rest, node)
    ensures Get(node, ms.key) == Some(ms.value)
  {
    assert ms.key in Keys(ms);
  }

  lemma DroppedHead(j: Judge, defs: Definitions, ms: Members, seen: seq<string>, fuel: nat, node: Members, out: Members,
                    v: Json)
    requires ms.Member? && (ms.key == "default" || ms.key == "required")
    requires ResolveMembers(defs, ms, seen).Ok? && ResolveMembers(defs, ms.rest, seen).Ok?
    requires AllHold(AsIs(j), 0, NODEFS, ResolveMembers(defs, ms.rest, seen).value, out, v)
             <==> AllHold(Unfolded(j), fuel, defs, ms.rest, node, v)
    ensures AllHold(AsIs(j), 0, NODEFS, ResolveMembers(defs, ms, seen).value, out, v)
            <==> AllHold(Unfolded(j), fuel, defs, ms, node, v)
  {
    ResolvedHead(defs, ms, seen);
    DroppedKeyword(j, fuel, defs, ms, node, v);
  }

  lemma PropertiesHead(j: Judge, defs: Definitions, ms: Members, seen: seq<string>, fuel: nat, node: Members,
                       out: Members, v: Json)
    requires RegularDefinitions(defs) && DictDefinitions(defs) && RegularMembers(ms) && MembersAreDicts(ms)
    requires ResolveMembers(defs, ms, seen).Ok? && fuel >= Unseen(defs, seen)
    requires ms.Member? && ms.key == "properties" && ms.value.Obj? && ResolveMembers(defs, ms.rest, seen).Ok?
    requires AllHold(AsIs(j), 0, NODEFS, ResolveMembers(defs, ms.rest, seen).value, out, v)
             <==> AllHold(Unfolded(j), fuel, defs, ms.rest, node, v)
    ensures AllHold(AsIs(j), 0, NODEFS, ResolveMembers(defs, ms, seen).value, out, v)
            <==> AllHold(Unfolded(j), fuel, defs, ms, node, v)
    decreases Unseen(defs, seen), ms, 0
  {
    ResolvedHead(defs, ms, seen);
    RegularHead(ms);
    KeptKeyword(j, fuel, defs, ms, node, v);
    PropertiesMember(j, defs, ms.value.members, seen, fuel, node, out, ResolveMembers(defs, ms.rest, seen).value, v);
  }

  lemma OtherHead(j: Judge, defs: Definitions, ms: Members, seen: seq<string>, fuel: nat, node: Members, out: Members,
                  v: Json)
    requires RegularDefinitions(defs) && DictDefinitions(defs) && RegularMembers(ms) && MembersAreDicts(ms)
    requires ResolveMembers(defs, ms, seen).Ok? && fuel >= Unseen(defs, seen)
    requires ms.Member? && ms.key != "default" && ms.key != "required" && !(ms.key == "properties" && ms.value.Obj?)
    requires Get(node, ms.key) == Some(ms.value) && DefinitionName(node).None?
             && PropertyNames(node) == PropertyNames(out)
    requires ResolveMembers(defs, ms.rest, seen).Ok?
    requires AllHold(AsIs(j), 0, NODEFS, ResolveMembers(defs, ms.rest, seen).value, out, v)
             <==> AllHold(Unfolded(j), fuel, defs, ms.rest, node, v)
    ensures AllHold(AsIs(j), 0, NODEFS, ResolveMembers(defs, ms, seen).value, out, v)
            <==> AllHold(Unfolded(j), fuel, defs, ms, node, v)
    decreases Unseen(defs, seen), ms, 0
  {
    ResolvedHead(defs, ms, seen);
    KeptKeyword(j, fuel, defs, ms, node, v);
    AllHoldMember(j, 0, NODEFS, ms.key, Resolve(defs, ms.value, seen).value, ResolveMembers(defs, ms.rest, seen).value,
                  out, v);
    ArgumentMeaning(j, defs, ms.key, ms.value, seen, fuel, node, out, v);
  }

  lemma KeptKeyword(j: Judge, fuel: nat, defs: Definitions, ms: Members, node: Members, v: Json)
    requires ms.Member? && ms.key != "required"
    ensures AllHold(Unfolded(j), fuel, defs, ms, node, v)
            == (Holds(Unfolded(j), fuel, defs, ms.key, ms.value, node, v)
                && AllHold(Unfolded(j), fuel, defs, ms.rest, node, v))
  {
  }

  /** What the pass makes of the first member of a node. */
  lemma ResolvedHead(defs: Definitions, ms: Members, seen: seq<string>)
    requires ms.Member? && ResolveMembers(defs, ms, seen).Ok?
    ensures ResolveMembers(defs, ms.rest, seen).Ok?
    ensures var others := ResolveMembers(defs, ms.rest, seen).value;
            ResolveMembers(defs, ms, seen).value ==
            if ms.key == "default" || ms.key == "required" then others
            else if ms.key == "properties" && ms.value.Obj? then
              Member(ms.key, Obj(ResolveProperties(defs, ms.value.members, seen).value),
                     Member("required", Arr(KeyList(ms.value.members)), others))
            else Member(ms.key, Resolve(defs, ms.value, seen).value, others)
  {
  }

  lemma RegularHead(ms: Members)
    requires ms.Member? && ms.key == "properties" && ms.value.Obj? && RegularMembers(ms)
    ensures RegularProperties(ms.value.members)
  {
    assert KeywordOf(ms.key) == Properties;
  }

  lemma DroppedKeyword(j: Judge, fuel: nat, defs: Definitions, ms: Members, node: Members, v: Json)
    requires ms.Member? && (ms.key == "default" || ms.key == "required")
    ensures AllHold(Unfolded(j), fuel, defs, ms, node, v) == AllHold(Unfolded(j), fuel, defs, ms.rest, node, v)
  {
  }

  /** The generated `required` makes a plain reader check what a strict one checks. */
  lemma PropertiesMember(j: Judge, defs: Definitions, props: Members, seen: seq<string>, fuel: nat, node: Members,
                         out: Members, others: Members, v: Json)
    requires RegularDefinitions(defs) && DictDefinitions(defs) && RegularProperties(props) && MembersAreDicts(props)
    requires ResolveProperties(defs, props, seen).Ok? && fuel >= Unseen(defs, seen)
    ensures var resolved := Obj(ResolveProperties(defs, props, seen).value);
            AllHold(AsIs(j), 0, NODEFS, Member("properties", resolved, Member("required", Arr(KeyList(props)), others)),
                    out, v)
            <==> Holds(Unfolded(j), fuel, defs, "properties", Obj(props), node, v)
                 && AllHold(AsIs(j), 0, NODEFS, others, out, v)
    decreases Unseen(defs, seen), props, 1
  {
    var resolved := ResolveProperties(defs, props, seen).value;
    var required := Member("required", Arr(KeyList(props)), others);
    AllHoldMember(j, 0, NODEFS, "properties", Obj(resolved), required, out, v);
    AllHoldMember(j, 0, NODEFS, "required", Arr(KeyList(props)), others, out, v);
    PropertiesKeyword(AsIs(j), 0, NODEFS, resolved, out, v);
    PropertiesKeyword(Unfolded(j), fuel, defs, props, node, v);
    RequiredKeyword(j, props, out, v);
    if v.Obj? {
      PropertiesMeaning(j, defs, props, seen, fuel, v.members);
    }
  }

  lemma AllHoldMember(j: Judge, fuel: nat, defs: Definitions, key: string, value: Json, rest: Members, node: Members,
                      v: Json)
    ensures AllHold(AsIs(j), fuel, defs, Member(key, value, rest), node, v)
      == (Holds(AsIs(j), fuel, defs, key, value, node, v) && AllHold(AsIs(j), fuel, defs, rest, node, v))
  {
  }

  lemma PropertiesKeyword(reading: Reading, fuel: nat, defs: Definitions, props: Members, node: Members, v: Json)
    ensures Holds(reading, fuel, defs, "properties", Obj(props), node, v)
      == (v.Obj? ==> PropertiesHold(reading, fuel, defs, props, v.members))
  {
  }

  lemma RequiredKeyword(j: Judge, props: Members, node: Members, v: Json)
    ensures Holds(AsIs(j), 0, NODEFS, "required", Arr(KeyList(props)), node, v)
            == (v.Obj? ==> Keys(props) <= Keys(v.members))
  {
    KeyListElements(props);
  }

  lemma {:induction false} ArgumentMeaning(j: Judge, defs: Definitions, key: string, arg: Json, seen: seq<string>,
                                           fuel: nat, node: Members, out: Members, v: Json)
    requires RegularDefinitions(defs) && DictDefinitions(defs) && RegularArgument(key, arg) && IsDict(arg)
    requires Resolve(defs, arg, seen).Ok? && fuel >= Unseen(defs, seen)
    requires Get(node, key) == Some(arg) && DefinitionName(node).None? && PropertyNames(node) == PropertyNames(out)
    requires key != "required" && !(key == "properties" && arg.Obj?)
    ensures Holds(AsIs(j), 0, NODEFS, key, Resolve(defs, arg, seen).value, out, v)
            <==> Holds(Unfolded(j), fuel, defs, key, arg, node, v)
    decreases Unseen(defs, seen), arg, 3
  {
    var kw := KeywordOf(key);
    if kw == AnyOf || kw == OneOf || kw == AllOf {
      CombinatorArgument(j, defs, key, arg, seen, fuel, node, out, v);
    } else if kw == EachItem || kw == AdditionalProperties {
      SubschemaArgument(j, defs, key, arg, seen, fuel, node, out, v);
    } else {
      PlainArgument(j, defs, key, arg, seen, fuel, node, out, v);
    }
  }

  lemma PlainArgument(j: Judge, defs: Definitions, key: string, arg: Json, seen: seq<string>, fuel: nat, node: Members,
                      out: Members, v: Json)
    requires KeywordOf(key) in {Scalar, Reference, Annotation, Properties} && RegularArgument(key, arg)
    requires Resolve(defs, arg, seen).Ok? && Get(node, key) == Some(arg) && DefinitionName(node).None?
    requires !(key == "properties" && arg.Obj?)
    ensures Holds(AsIs(j), 0, NODEFS, key, Resolve(defs, arg, seen).value, out, v)
            <==> Holds(Unfolded(j), fuel, defs, key, arg, node, v)
  {
    if KeywordOf(key) == Scalar {
      PlainResolves(defs, arg, seen);
    }
  }

  lemma {:induction false} CombinatorArgument(j: Judge, defs: Definitions, key: string, arg: Json, seen: seq<string>,
                                              fuel: nat, node: Members, out: Members, v: Json)
    requires RegularDefinitions(defs) && DictDefinitions(defs) && RegularArgument(key, arg) && IsDict(arg)
    requires Resolve(defs, arg, seen).Ok? && fuel >= Unseen(defs, seen)
    requires KeywordOf(key) in {AnyOf, OneOf, AllOf}
    ensures Holds(AsIs(j), 0, NODEFS, key, Resolve(defs, arg, seen).value, out, v)
            <==> Holds(Unfolded(j), fuel, defs, key, arg, node, v)
    decreases Unseen(defs, seen), arg, 1
  {
    if arg.Arr? {
      CountMeaning(j, defs, arg.items, seen, fuel, v);
    }
  }

  lemma {:induction false} SubschemaArgument(j: Judge, defs: Definitions, key: string, arg: Json, seen: seq<string>,
                                             fuel: nat, node: Members, out: Members, v: Json)
    requires RegularDefinitions(defs) && DictDefinitions(defs) && RegularArgument(key, arg) && IsDict(arg)
    requires Resolve(defs, arg, seen).Ok? && fuel >= Unseen(defs, seen) && PropertyNames(node) == PropertyNames(out)
    requires KeywordOf(key) in {EachItem, AdditionalProperties}
    ensures Holds(AsIs(j), 0, NODEFS, key, Resolve(defs, arg, seen).value, out, v)
            <==> Holds(Unfolded(j), fuel, defs, key, arg, node, v)
    decreases Unseen(defs, seen), arg, 2
  {
    if KeywordOf(key) == EachItem {
      if v.Arr? {
        EachMeaning(j, defs, arg, seen, fuel, Elements(v.items));
      }
    } else if v.Obj? {
      var extras := set k | k in Keys(v.members) - PropertyNames(node) :: Get(v.members, k).value;
      EachMeaning(j, defs, arg, seen, fuel, extras);
    }
  }

  lemma {:induction false} EachMeaning(j: Judge, defs: Definitions, schema: Json, seen: seq<string>, fuel: nat,
                                       values: set<Json>)
    requires RegularDefinitions(defs) && DictDefinitions(defs) && Regular(schema) && IsDict(schema)
    requires Resolve(defs, schema, seen).Ok? && fuel >= Unseen(defs, seen)
    ensures forall x | x in values ::
      Sat(AsIs(j), 0, NODEFS, Resolve(defs, schema, seen).value, x) <==> Sat(Unfolded(j), fuel, defs, schema, x)
    decreases Unseen(defs, seen), schema, 1
  {
    forall x | x in values {
      ResolveMeaning(j, defs, schema, seen, fuel, x);
    }
  }

  lemma {:induction false} CountMeaning(j: Judge, defs: Definitions, items: Items, seen: seq<string>, fuel: nat,
                                        v: Json)
    requires RegularDefinitions(defs) && DictDefinitions(defs) && RegularItems(items) && ItemsAreDicts(items)
    requires ResolveItems(defs, items, seen).Ok? && fuel >= Unseen(defs, seen)
    ensures Length(ResolveItems(defs, items, seen).value) == Length(items)
    ensures Count(AsIs(j), 0, NODEFS, ResolveItems(defs, items, seen).value, v)
            == Count(Unfolded(j), fuel, defs, items, v)
    decreases Unseen(defs, seen), items, 0
  {
    if items.Item? {
      ResolveMeaning(j, defs, items.head, seen, fuel, v);
      CountMeaning(j, defs, items.tail, seen, fuel, v);
    }
  }

  lemma {:induction false} PropertiesMeaning(j: Judge, defs: Definitions, props: Members, seen: seq<string>, fuel: nat,
                                             obj: Members)
    requires RegularDefinitions(defs) && DictDefinitions(defs) && RegularProperties(props) && MembersAreDicts(props)
    requires ResolveProperties(defs, props, seen).Ok? && fuel >= Unseen(defs, seen)
    ensures PropertiesHold(AsIs(j), 0, NODEFS, ResolveProperties(defs, props, seen).value, obj)
            && Keys(props) <= Keys(obj)
            <==> PropertiesHold(Unfolded(j), fuel, defs, props, obj)
    decreases Unseen(defs, seen), props, 0
  {
    if props.Member? {
      if props.key in Keys(obj) {
        ResolveMeaning(j, defs, props.value, seen, fuel, Get(obj, props.key).value);
      }
      PropertiesMeaning(j, defs, props.rest, seen, fuel, obj);
    }
  }

  // ---------- the whole schema ----------

  lemma {:induction false} WithoutMeaning(reading: Reading, fuel: nat, defs: Definitions, ms: Members, key: string,
                                          node: Members, v: Json)
    requires !IsAssertion(key)
    ensures AllHold(reading, fuel, defs, Without(ms, key), node, v) == AllHold(reading, fuel, defs, ms, node, v)
  {
    if ms.Member? {
      if ms.key == key {
        AnnotationHolds(reading, fuel, defs, key, ms.value, node, v);
      }
      WithoutMeaning(reading, fuel, defs, ms.rest, key, node, v);
    }
  }

  lemma {:induction false} WithoutKeepsRegular(ms: Members, key: string)
    requires RegularMembers(ms)
    ensures RegularMembers(Without(ms, key))
  {
    if ms.Member? {
      WithoutKeepsRegular(ms.rest, key);
    }
  }

  lemma WithoutKeepsOthers(ms: Members, key: string, k: string)
    requires k != key
    ensures Get(Without(ms, key), k) == Get(ms, k)
  {
  }

  lemma EmptyPathSeesAll(defs: Definitions)
    ensures Unseen(defs, []) == |defs|
  {
    assert (set name | name in defs && name !in []) == defs.Keys;
  }

  /** The schema without the definitions it carries. */
  function RootOf(schema: Members): Json {
    Obj(Without(schema, "$defs"))
  }

  /** Everywhere in the schema and its definitions, what stands beside a reference replaces nothing. */
  ghost predicate AllApart(schema: Members) {
    var defs := Carried(schema);
    Apart(defs, Obj(schema)) && forall name | name in defs :: Apart(defs, defs[name])
  }

  /** And `required` names declared properties. */
  ghost predicate AllNamed(schema: Members) {
    Names(Obj(schema)) && forall name | name in Carried(schema) :: Names(Carried(schema)[name])
  }

  /** Definitions and schema are as Python dicts are, with plain arguments for data keywords. */
  ghost predicate IsRegular(schema: Members) {
    && RegularDefinitions(Carried(schema)) && DictDefinitions(Carried(schema))
    && Regular(Obj(schema)) && MembersAreDicts(schema)
  }

  /**
   * What `gemini_schema` does to the meaning, for every schema whose data keywords have plain arguments. A value
   * satisfies the output exactly when it carries every declared property and satisfies the schema with its references
   * unfolded, keywords beside a reference replacing the definition's own, whatever `required` says.
   */
  lemma GeminiMeaning(j: Judge, schema: Members, fuel: nat, v: Json)
    requires IsRegular(schema) && fuel >= |Carried(schema)| && GeminiSchema(schema).Ok?
    ensures Sat(AsIs(j), 0, NODEFS, GeminiSchema(schema).value, v)
            <==> Sat(Unfolded(j), fuel, Carried(schema), RootOf(schema), v)
  {
    EmptyPathSeesAll(Carried(schema));
    RootIsRegular(schema);
    ResolveMeaning(j, Carried(schema), RootOf(schema), [], fuel, v);
  }

  /** Where what stands beside a reference replaces nothing, references may be read as the standard says. */
  lemma GeminiIsDeclared(j: Judge, schema: Members, fuel: nat, v: Json)
    requires IsRegular(schema) && fuel >= |Carried(schema)| && GeminiSchema(schema).Ok? && AllApart(schema)
    ensures Sat(AsIs(j), 0, NODEFS, GeminiSchema(schema).value, v)
            <==> Sat(Declared(j), fuel, Carried(schema), Obj(schema), v)
  {
    GeminiMeaning(j, schema, fuel, v);
    RootIsRegular(schema);
    RootIsApart(schema);
    UnfoldedIsDeclared(j, fuel, Carried(schema), RootOf(schema), v);
    RootMeaning(j, fuel, Carried(schema), schema, v);
  }

  /** And where `required` names declared properties, all of the schema counts. */
  lemma GeminiIsStrict(j: Judge, schema: Members, fuel: nat, v: Json)
    requires IsRegular(schema) && fuel >= |Carried(schema)| && GeminiSchema(schema).Ok?
    requires AllApart(schema) && AllNamed(schema)
    ensures Sat(AsIs(j), 0, NODEFS, GeminiSchema(schema).value, v)
            <==> Sat(Strict(j), fuel, Carried(schema), Obj(schema), v)
  {
    GeminiIsDeclared(j, schema, fuel, v);
    DeclaredIsStrict(j, fuel, Carried(schema), Obj(schema), v);
  }

  lemma RootIsApart(schema: Members)
    requires AllApart(schema)
    ensures Apart(Carried(schema), RootOf(schema))
  {
    WithoutKeepsOthers(schema, "$defs", "$ref");
    WithoutKeepsApart(Carried(schema), schema, "$defs");
  }

  lemma {:induction false} WithoutKeepsApart(defs: Definitions, ms: Members, key: string)
    requires ApartMembers(defs, ms)
    ensures ApartMembers(defs, Without(ms, key))
  {
    if ms.Member? {
      WithoutKeepsApart(defs, ms.rest, key);
    }
  }

  lemma RootIsRegular(schema: Members)
    requires Regular(Obj(schema)) && MembersAreDicts(schema)
    ensures Regular(Obj(Without(schema, "$defs"))) && MembersAreDicts(Without(schema, "$defs"))
  {
    var root := Without(schema, "$defs");
    WithoutKeepsDict(schema, "$defs");
    WithoutKeepsOthers(schema, "$defs", "$ref");
    WithoutKeepsRegular(schema, "$defs");
  }

  lemma RootMeaning(j: Judge, fuel: nat, defs: Definitions, schema: Members, v: Json)
    ensures Sat(Declared(j), fuel, defs, Obj(Without(schema, "$defs")), v)
            == Sat(Declared(j), fuel, defs, Obj(schema), v)
  {
    var root := Without(schema, "$defs");
    WithoutKeepsOthers(schema, "$defs", "properties");
    NodeMatters(Declared(j), fuel, defs, root, root, schema, v);
    WithoutMeaning(Declared(j), fuel, defs, schema, "$defs", schema, v);
  }

  // ---------- where `required` names declared properties ----------

  /** At every place a value is checked, `required` names properties declared there. */
  ghost predicate Names(schema: Json)
    decreases schema, 0
  {
    schema.Obj? ==> NamesMembers(schema.members, schema.members)
  }

  ghost predicate NamesMembers(ms: Members, node: Members)
    decreases ms, 1
  {
    ms.Member? ==> NamesArgument(ms.key, ms.value, node) && NamesMembers(ms.rest, node)
  }

  ghost predicate NamesArgument(key: string, arg: Json, node: Members)
    decreases arg, 1
  {
    match KeywordOf(key)
    case AnyOf => arg.Arr? ==> NamesItems(arg.items)
    case OneOf => arg.Arr? ==> NamesItems(arg.items)
    case AllOf => arg.Arr? ==> NamesItems(arg.items)
    case EachItem => Names(arg)
    case AdditionalProperties => Names(arg)
    case Properties => arg.Obj? ==> NamesProperties(arg.members)
    case Required => arg.Arr? ==> forall s | Str(s) in Elements(arg.items) :: s in PropertyNames(node)
    case _ => true
  }

  ghost predicate NamesItems(items: Items)
    decreases items, 0
  {
    items.Item? ==> Names(items.head) && NamesItems(items.tail)
  }

  ghost predicate NamesProperties(props: Members)
    decreases props, 0
  {
    props.Member? ==> Names(props.value) && NamesProperties(props.rest)
  }

  /** There `required` adds nothing for a reader who asks for every declared property. */
  lemma {:induction false} DeclaredIsStrict(j: Judge, fuel: nat, defs: Definitions, schema: Json, v: Json)
    requires Names(schema) && forall name | name in defs :: Names(defs[name])
    ensures Sat(Declared(j), fuel, defs, schema, v) == Sat(Strict(j), fuel, defs, schema, v)
    decreases fuel, schema, 0
  {
    if schema.Obj? {
      var ms := schema.members;
      DeclaredMembers(j, fuel, defs, ms, ms, v);
      if v.Obj? && AllHold(Declared(j), fuel, defs, ms, ms, v) {
        StrictCarriesAll(j, fuel, defs, ms, ms, v);
      }
    }
  }

  lemma {:induction false} DeclaredMembers(j: Judge, fuel: nat, defs: Definitions, ms: Members, node: Members, v: Json)
    requires NamesMembers(ms, node) && forall name | name in defs :: Names(defs[name])
    ensures AllHold(Strict(j), fuel, defs, ms, node, v) ==> AllHold(Declared(j), fuel, defs, ms, node, v)
    ensures (v.Obj? ==> PropertyNames(node) <= Keys(v.members))
            ==> AllHold(Declared(j), fuel, defs, ms, node, v) == AllHold(Strict(j), fuel, defs, ms, node, v)
    decreases fuel, ms, 3
  {
    if ms.Member? {
      DeclaredMembers(j, fuel, defs, ms.rest, node, v);
      if KeywordOf(ms.key) != Required {
        DeclaredArgument(j, fuel, defs, ms.key, ms.value, node, v);
      }
    }
  }

  lemma {:induction false} DeclaredArgument(j: Judge, fuel: nat, defs: Definitions, key: string, arg: Json,
                                            node: Members, v: Json)
    requires NamesArgument(key, arg, node) && (forall name | name in defs :: Names(defs[name]))
             && KeywordOf(key) != Required
    ensures Holds(Declared(j), fuel, defs, key, arg, node, v) == Holds(Strict(j), fuel, defs, key, arg, node, v)
    decreases fuel, arg, 2
  {
    var kw := KeywordOf(key);
    if kw == Reference {
      if arg.Str? && PREFIX <= arg.s && arg.s[|PREFIX|..] in defs && fuel > 0 {
        DeclaredIsStrict(j, fuel - 1, defs, defs[arg.s[|PREFIX|..]], v);
      }
    } else if kw == AnyOf || kw == OneOf || kw == AllOf {
      if arg.Arr? {
        DeclaredCount(j, fuel, defs, arg.items, v);
      }
    } else if kw == EachItem || kw == AdditionalProperties {
      DeclaredEach(j, fuel, defs, key, arg, node, v);
    } else if kw == Properties && arg.Obj? && v.Obj? {
      DeclaredProperties(j, fuel, defs, arg.members, v.members);
    }
  }

  lemma {:induction false} DeclaredEach(j: Judge, fuel: nat, defs: Definitions, key: string, arg: Json, node: Members,
                                        v: Json)
    requires Names(arg) && (forall name | name in defs :: Names(defs[name]))
    requires KeywordOf(key) in {EachItem, AdditionalProperties}
    ensures Holds(Declared(j), fuel, defs, key, arg, node, v) == Holds(Strict(j), fuel, defs, key, arg, node, v)
    decreases fuel, arg, 1
  {
    forall x {:trigger Sat(Declared(j), fuel, defs, arg, x)}
      ensures Sat(Declared(j), fuel, defs, arg, x) == Sat(Strict(j), fuel, defs, arg, x)
    {
      DeclaredIsStrict(j, fuel, defs, arg, x);
    }
  }

  lemma {:induction false} DeclaredCount(j: Judge, fuel: nat, defs: Definitions, items: Items, v: Json)
    requires NamesItems(items) && forall name | name in defs :: Names(defs[name])
    ensures Count(Declared(j), fuel, defs, items, v) == Count(Strict(j), fuel, defs, items, v)
    decreases fuel, items, 0
  {
    if items.Item? {
      DeclaredIsStrict(j, fuel, defs, items.head, v);
      DeclaredCount(j, fuel, defs, items.tail, v);
    }
  }

  lemma {:induction false} DeclaredProperties(j: Judge, fuel: nat, defs: Definitions, props: Members, obj: Members)
    requires NamesProperties(props) && forall name | name in defs :: Names(defs[name])
    ensures PropertiesHold(Declared(j), fuel, defs, props, obj) == PropertiesHold(Strict(j), fuel, defs, props, obj)
    decreases fuel, props, 0
  {
    if props.Member? {
      match Get(obj, props.key) {
        case Some(x) => DeclaredIsStrict(j, fuel, defs, props.value, x);
        case None =>
      }
      DeclaredProperties(j, fuel, defs, props.rest, obj);
    }
  }

  lemma {:induction false} StrictCarriesAll(j: Judge, fuel: nat, defs: Definitions, ms: Members, node: Members, v: Json)
    requires AllHold(Declared(j), fuel, defs, ms, node, v) && v.Obj?
    ensures PropertyNames(ms) <= Keys(v.members)
  {
    if ms.Member? {
      if ms.key != "properties" {
        StrictCarriesAll(j, fuel, defs, ms.rest, node, v);
      } else if ms.value.Obj? {
        PropertiesCarried(j, fuel, defs, ms.value.members, v.members);
      }
    }
  }

  lemma {:induction false} PropertiesCarried(j: Judge, fuel: nat, defs: Definitions, props: Members, obj: Members)
    requires PropertiesHold(Declared(j), fuel, defs, props, obj)
    ensures Keys(props) <= Keys(obj)
  {
    if props.Member? {
      PropertiesCarried(j, fuel, defs, props.rest, obj);
    }
  }

  // ---------- a strict reader accepts less ----------

  /** No `oneOf` at any place a value is checked. */
  ghost predicate NoOneOf(schema: Json)
    decreases schema, 0
  {
    schema.Obj? ==> NoOneOfMembers(schema.members)
  }

  ghost predicate NoOneOfMembers(ms: Members)
    decreases ms, 1
  {
    ms.Member? ==> NoOneOfArgument(ms.key, ms.value) && NoOneOfMembers(ms.rest)
  }

  ghost predicate NoOneOfArgument(key: string, arg: Json)
    decreases arg, 1
  {
    match KeywordOf(key)
    case OneOf => false
    case AnyOf => arg.Arr? ==> NoOneOfItems(arg.items)
    case AllOf => arg.Arr? ==> NoOneOfItems(arg.items)
    case EachItem => NoOneOf(arg)
    case AdditionalProperties => NoOneOf(arg)
    case Properties => arg.Obj? ==> NoOneOfProperties(arg.members)
    case _ => true
  }

  ghost predicate NoOneOfItems(items: Items)
    decreases items, 0
  {
    items.Item? ==> NoOneOf(items.head) && NoOneOfItems(items.tail)
  }

  ghost predicate NoOneOfProperties(props: Members)
    decreases props, 0
  {
    props.Member? ==> NoOneOf(props.value) && NoOneOfProperties(props.rest)
  }

  /**
   * Where nothing beside a reference replaces anything, `required` names declared properties and there is no `oneOf`,
   * whatever the inlined schema accepts the model's
   * own schema accepts, read as the standard says.
   */
  lemma InlinedIsStronger(j: Judge, schema: Members, fuel: nat, v: Json)
    requires IsRegular(schema) && fuel >= |Carried(schema)| && GeminiSchema(schema).Ok?
    requires AllApart(schema) && AllNamed(schema)
    requires NoOneOf(Obj(schema)) && forall name | name in Carried(schema) :: NoOneOf(Carried(schema)[name])
    ensures Sat(AsIs(j), 0, NODEFS, GeminiSchema(schema).value, v)
            ==> Sat(AsIs(j), fuel, Carried(schema), Obj(schema), v)
  {
    GeminiIsStrict(j, schema, fuel, v);
    if Sat(Strict(j), fuel, Carried(schema), Obj(schema), v) {
      StrictIsStronger(j, fuel, Carried(schema), Obj(schema), v);
    }
  }

  /**
   * Read strictly a schema accepts less. (With `oneOf` it need not: two alternatives can match once absent properties
   * are allowed.)
   */
  lemma {:induction false} StrictIsStronger(j: Judge, fuel: nat, defs: Definitions, schema: Json, v: Json)
    requires NoOneOf(schema) && (forall name | name in defs :: NoOneOf(defs[name]))
    requires Sat(Strict(j), fuel, defs, schema, v)
    ensures Sat(AsIs(j), fuel, defs, schema, v)
    decreases fuel, schema, 0
  {
    if schema.Obj? {
      StrictMembers(j, fuel, defs, schema.members, schema.members, v);
    }
  }

  lemma {:induction false} StrictMembers(j: Judge, fuel: nat, defs: Definitions, ms: Members, node: Members, v: Json)
    requires NoOneOfMembers(ms) && (forall name | name in defs :: NoOneOf(defs[name]))
    requires AllHold(Strict(j), fuel, defs, ms, node, v)
    ensures AllHold(AsIs(j), fuel, defs, ms, node, v)
    decreases fuel, ms, 2
  {
    if ms.Member? {
      StrictArgument(j, fuel, defs, ms.key, ms.value, node, v);
      StrictMembers(j, fuel, defs, ms.rest, node, v);
    }
  }

  lemma {:induction false} StrictArgument(j: Judge, fuel: nat, defs: Definitions, key: string, arg: Json, node: Members,
                                          v: Json)
    requires NoOneOfArgument(key, arg) && (forall name | name in defs :: NoOneOf(defs[name]))
    requires Holds(Strict(j), fuel, defs, key, arg, node, v)
    ensures Holds(AsIs(j), fuel, defs, key, arg, node, v)
    decreases fuel, arg, 1
  {
    match KeywordOf(key)
    case Reference =>
      if arg.Str? && PREFIX <= arg.s {
        StrictIsStronger(j, fuel - 1, defs, defs[arg.s[|PREFIX|..]], v);
      }
    case AnyOf => if arg.Arr? { StrictCount(j, fuel, defs, arg.items, v); }
    case AllOf => if arg.Arr? { StrictCount(j, fuel, defs, arg.items, v); }
    case EachItem =>
      if v.Arr? {
        forall x | x in Elements(v.items) { StrictIsStronger(j, fuel, defs, arg, x); }
      }
    case AdditionalProperties =>
      if v.Obj? {
        forall k | k in Keys(v.members) - PropertyNames(node) {
          StrictIsStronger(j, fuel, defs, arg, Get(v.members, k).value);
        }
      }
    case Properties => if arg.Obj? && v.Obj? { StrictProperties(j, fuel, defs, arg.members, v.members); }
    case _ =>
  }

  lemma {:induction false} StrictCount(j: Judge, fuel: nat, defs: Definitions, items: Items, v: Json)
    requires NoOneOfItems(items) && (forall name | name in defs :: NoOneOf(defs[name]))
    ensures Count(Strict(j), fuel, defs, items, v) <= Count(AsIs(j), fuel, defs, items, v)
    decreases fuel, items, 0
  {
    if items.Item? {
      if Sat(Strict(j), fuel, defs, items.head, v) {
        StrictIsStronger(j, fuel, defs, items.head, v);
      }
      StrictCount(j, fuel, defs, items.tail, v);
    }
  }

  lemma {:induction false} StrictProperties(j: Judge, fuel: nat, defs: Definitions, props: Members, obj: Members)
    requires NoOneOfProperties(props) && (forall name | name in defs :: NoOneOf(defs[name]))
    requires PropertiesHold(Strict(j), fuel, defs, props, obj)
    ensures PropertiesHold(AsIs(j), fuel, defs, props, obj)
    decreases fuel, props, 0
  {
    if props.Member? {
      match Get(obj, props.key) {
        case Some(x) => StrictIsStronger(j, fuel, defs, props.value, x);
        case None =>
      }
      StrictProperties(j, fuel, defs, props.rest, obj);
    }
  }
}
