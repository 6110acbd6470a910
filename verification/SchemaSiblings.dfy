// What stands beside a reference: keywords there replace the definition's own when it is unfolded.
module SchemaSiblings {
  // Where they replace nothing, that is the conjunction the standard asks for.

  import opened Wrappers
  import opened Json
  import opened SchemaInliner

  ghost predicate DictDefinitions(defs: Definitions) {
    forall name | name in defs :: IsDict(defs[name])
  }

  // ---------- dicts ----------

  lemma SetKeepsDict(ms: Members, key: string, value: Json)
    requires MembersAreDicts(ms) && IsDict(value)
    ensures MembersAreDicts(Set(ms, key, value))
  {
  }

  lemma MergeKeepsDict(base: Members, over: Members)
    requires MembersAreDicts(base) && MembersAreDicts(over)
    ensures MembersAreDicts(Merge(base, over))
    decreases over
  {
    if over.Member? {
      SetKeepsDict(base, over.key, over.value);
      MergeKeepsDict(Set(base, over.key, over.value), over.rest);
    }
  }

  lemma WithoutKeepsDict(ms: Members, key: string)
    requires MembersAreDicts(ms)
    ensures MembersAreDicts(Without(ms, key))
  {
  }

  lemma UnfoldingIsDict(defs: Definitions, ms: Members, name: string)
    requires name in defs && defs[name].Obj? && DictDefinitions(defs) && MembersAreDicts(ms)
    ensures MembersAreDicts(Unfolding(defs, ms, name))
  {
    WithoutKeepsDict(ms, "$ref");
    MergeKeepsDict(defs[name].members, Without(ms, "$ref"));
  }

  // ---------- one node ----------

  lemma NodeMatters(reading: Reading, fuel: nat, defs: Definitions, ms: Members, node: Members, node': Members, v: Json)
    requires PropertyNames(node) == PropertyNames(node')
    ensures AllHold(reading, fuel, defs, ms, node, v) == AllHold(reading, fuel, defs, ms, node', v)
  {
    if ms.Member? {
      assert Holds(reading, fuel, defs, ms.key, ms.value, node, v)
             == Holds(reading, fuel, defs, ms.key, ms.value, node', v);
      NodeMatters(reading, fuel, defs, ms.rest, node, node', v);
    }
  }

  lemma AnnotationHolds(reading: Reading, fuel: nat, defs: Definitions, key: string, arg: Json, node: Members, v: Json)
    requires !IsAssertion(key)
    ensures Holds(reading, fuel, defs, key, arg, node, v)
  {
  }

  /** Keywords that a reader who ignores `required` does not look at. */
  predicate Inert(key: string) {
    KeywordOf(key) == Annotation || KeywordOf(key) == Required
  }

  lemma InertHolds(j: Judge, fuel: nat, defs: Definitions, key: string, arg: Json, node: Members, v: Json)
    requires Inert(key)
    ensures Holds(Unfolded(j), fuel, defs, key, arg, node, v) && Holds(Declared(j), fuel, defs, key, arg, node, v)
  {
  }

  // ---------- merging members ----------

  lemma {:induction false} MergeKeepsOthers(base: Members, over: Members, key: string)
    requires key !in Keys(over)
    ensures Get(Merge(base, over), key) == Get(base, key)
    decreases over
  {
    if over.Member? {
      MergeKeepsOthers(Set(base, over.key, over.value), over.rest, key);
    }
  }

  lemma {:induction false} WithoutSet(ms: Members, key: string, value: Json, other: string)
    requires key != other
    ensures Without(Set(ms, key, value), other) == Set(Without(ms, other), key, value)
  {
    if ms.Member? {
      WithoutSet(ms.rest, key, value, other);
    }
  }

  lemma {:induction false} WithoutMerge(base: Members, over: Members, key: string)
    requires key !in Keys(over)
    ensures Without(Merge(base, over), key) == Merge(Without(base, key), over)
    decreases over
  {
    if over.Member? {
      WithoutSet(base, over.key, over.value, key);
      WithoutMerge(Set(base, over.key, over.value), over.rest, key);
    }
  }

  lemma {:induction false} SetSet(ms: Members, a: string, x: Json, b: string, y: Json)
    requires a in Keys(ms) && a != b
    ensures Set(Set(ms, a, x), b, y) == Set(Set(ms, b, y), a, x)
  {
    if ms.key != a && ms.key != b {
      SetSet(ms.rest, a, x, b, y);
    }
  }

  lemma {:induction false} SetAgain(ms: Members, key: string, x: Json, y: Json)
    ensures Set(Set(ms, key, x), key, y) == Set(ms, key, y)
  {
    if ms.Member? && ms.key != key {
      SetAgain(ms.rest, key, x, y);
    }
  }

  lemma {:induction false} SetBeforeMerge(base: Members, over: Members, key: string, value: Json)
    requires key in Keys(base) && key !in Keys(over)
    ensures Set(Merge(base, over), key, value) == Merge(Set(base, key, value), over)
    decreases over
  {
    if over.Member? {
      SetBeforeMerge(Set(base, over.key, over.value), over.rest, key, value);
      SetSet(base, key, value, over.key, over.value);
    }
  }

  lemma {:induction false} MergeSet(base: Members, over: Members, key: string, value: Json)
    requires MembersAreDicts(over)
    ensures Merge(base, Set(over, key, value)) == Set(Merge(base, over), key, value)
    decreases over
  {
    if over.Member? {
      if over.key == key {
        SetBeforeMerge(Set(base, key, over.value), over.rest, key, value);
        SetAgain(base, key, over.value, value);
      } else {
        MergeSet(Set(base, over.key, over.value), over.rest, key, value);
      }
    }
  }

  /** Unfolding twice: what stands beside the first reference comes on top of all. */
  lemma {:induction false} MergeAssociates(base: Members, middle: Members, over: Members)
    requires MembersAreDicts(middle) && MembersAreDicts(over)
    ensures Merge(base, Merge(middle, over)) == Merge(Merge(base, middle), over)
    decreases over
  {
    if over.Member? {
      SetKeepsDict(middle, over.key, over.value);
      MergeAssociates(base, Set(middle, over.key, over.value), over.rest);
      MergeSet(base, middle, over.key, over.value);
    }
  }

  // ---------- siblings that replace nothing ----------

  /** The key is not in `ms`, nor in what it unfolds to. */
  ghost predicate Fresh(n: nat, defs: Definitions, ms: Members, key: string) {
    key !in Keys(ms)
    && (Target(defs, ms).Some? && n > 0 ==> Fresh(n - 1, defs, Unfolding(defs, ms, Target(defs, ms).value), key))
  }

  ghost predicate AlwaysFresh(defs: Definitions, ms: Members, key: string) {
    forall n: nat :: Fresh(n, defs, ms, key)
  }

  /** Added to `ms`, these members replace nothing that matters: they are inert, or scalar keywords it does not have. */
  ghost predicate Adds(defs: Definitions, over: Members, ms: Members) {
    forall k | k in Keys(over) :: Inert(k) || (KeywordOf(k) == Scalar && AlwaysFresh(defs, ms, k))
  }

  /** Everywhere in the schema, what stands beside a reference replaces nothing of the definition. */
  ghost predicate Apart(defs: Definitions, schema: Json)
    decreases schema, 0
  {
    schema.Obj? ==>
      && (Target(defs, schema.members).Some? ==>
            Adds(defs, Without(schema.members, "$ref"), defs[Target(defs, schema.members).value].members))
      && ApartMembers(defs, schema.members)
  }

  ghost predicate ApartMembers(defs: Definitions, ms: Members)
    decreases ms, 1
  {
    ms.Member? ==> ApartArgument(defs, ms.key, ms.value) && ApartMembers(defs, ms.rest)
  }

  ghost predicate ApartArgument(defs: Definitions, key: string, arg: Json)
    decreases arg, 1
  {
    match KeywordOf(key)
    case AnyOf => arg.Arr? ==> ApartItems(defs, arg.items)
    case OneOf => arg.Arr? ==> ApartItems(defs, arg.items)
    case AllOf => arg.Arr? ==> ApartItems(defs, arg.items)
    case EachItem => Apart(defs, arg)
    case AdditionalProperties => Apart(defs, arg)
    case Properties => arg.Obj? ==> ApartProperties(defs, arg.members)
    case _ => true
  }

  ghost predicate ApartItems(defs: Definitions, items: Items)
    decreases items, 0
  {
    items.Item? ==> Apart(defs, items.head) && ApartItems(defs, items.tail)
  }

  ghost predicate ApartProperties(defs: Definitions, props: Members)
    decreases props, 0
  {
    props.Member? ==> Apart(defs, props.value) && ApartProperties(defs, props.rest)
  }

  lemma FirstHolds(j: Judge, fuel: nat, defs: Definitions, ms: Members, node: Members, v: Json)
    requires ms.Member?
    ensures AllHold(Unfolded(j), fuel, defs, ms, node, v)
            == (Holds(Unfolded(j), fuel, defs, ms.key, ms.value, node, v)
                && AllHold(Unfolded(j), fuel, defs, ms.rest, node, v))
  {
  }

  lemma {:induction false} SetSplits(j: Judge, fuel: nat, defs: Definitions, ms: Members, key: string, value: Json,
                                     node: Members, v: Json)
    requires Inert(key) || key !in Keys(ms)
    ensures AllHold(Unfolded(j), fuel, defs, Set(ms, key, value), node, v)
            == (AllHold(Unfolded(j), fuel, defs, ms, node, v)
                && Holds(Unfolded(j), fuel, defs, key, value, node, v))
  {
    FirstHolds(j, fuel, defs, Set(ms, key, value), node, v);
    if ms.Member? {
      FirstHolds(j, fuel, defs, ms, node, v);
      if ms.key == key {
        InertHolds(j, fuel, defs, key, ms.value, node, v);
        InertHolds(j, fuel, defs, key, value, node, v);
      } else {
        SetSplits(j, fuel, defs, ms.rest, key, value, node, v);
      }
    }
  }

  lemma {:induction false} MergeSplits(j: Judge, fuel: nat, defs: Definitions, base: Members, over: Members,
                                       node: Members, v: Json)
    requires MembersAreDicts(over) && forall k | k in Keys(over) :: Inert(k) || k !in Keys(base)
    ensures AllHold(Unfolded(j), fuel, defs, Merge(base, over), node, v)
            == (AllHold(Unfolded(j), fuel, defs, base, node, v) && AllHold(Unfolded(j), fuel, defs, over, node, v))
    decreases over
  {
    if over.Member? {
      SetSplits(j, fuel, defs, base, over.key, over.value, node, v);
      MergeSplits(j, fuel, defs, Set(base, over.key, over.value), over.rest, node, v);
    }
  }

  /** Inert and scalar keywords mean the same anywhere, for either reader. */
  lemma {:induction false} ScalarsAnywhere(j: Judge, fuel: nat, defs: Definitions, ms: Members, node: Members,
                                           fuel': nat, node': Members, v: Json)
    requires forall k | k in Keys(ms) :: Inert(k) || KeywordOf(k) == Scalar
    ensures AllHold(Unfolded(j), fuel, defs, ms, node, v) == AllHold(Unfolded(j), fuel', defs, ms, node', v)
            == AllHold(Declared(j), fuel, defs, ms, node, v) == AllHold(Declared(j), fuel', defs, ms, node', v)
  {
    if ms.Member? {
      ScalarsAnywhere(j, fuel, defs, ms.rest, node, fuel', node', v);
      if Inert(ms.key) {
        InertHolds(j, fuel, defs, ms.key, ms.value, node, v);
        InertHolds(j, fuel', defs, ms.key, ms.value, node', v);
      }
    }
  }

  /** Added keywords that replace nothing are a further condition. */
  lemma {:induction false} MergeAdds(j: Judge, fuel: nat, defs: Definitions, base: Members, over: Members, v: Json)
    requires DictDefinitions(defs) && MembersAreDicts(base) && MembersAreDicts(over) && Adds(defs, over, base)
    ensures Sat(Unfolded(j), fuel, defs, Obj(Merge(base, over)), v)
            == (Sat(Unfolded(j), fuel, defs, Obj(base), v) && AllHold(Unfolded(j), fuel, defs, over, over, v))
    decreases fuel
  {
    NothingReplaced(defs, over, base);
    MergeKeepsOthers(base, over, "$ref");
    match Target(defs, base)
    case None => MergeAddsHere(j, fuel, defs, base, over, v);
    case Some(name) =>
      UnfoldingMerged(defs, base, over, name);
      if fuel > 0 {
        UnfoldingIsDict(defs, base, name);
        StillAdds(defs, over, base, name);
        MergeAdds(j, fuel - 1, defs, Unfolding(defs, base, name), over, v);
      }
      MergeAddsThere(j, fuel, defs, base, over, name, v);
  }

  lemma MergeAddsHere(j: Judge, fuel: nat, defs: Definitions, base: Members, over: Members, v: Json)
    requires MembersAreDicts(over) && Adds(defs, over, base)
    requires Target(defs, base).None? && Target(defs, Merge(base, over)).None?
    ensures Sat(Unfolded(j), fuel, defs, Obj(Merge(base, over)), v)
            == (Sat(Unfolded(j), fuel, defs, Obj(base), v) && AllHold(Unfolded(j), fuel, defs, over, over, v))
  {
    var merged := Merge(base, over);
    NothingReplaced(defs, over, base);
    MergeKeepsOthers(base, over, "properties");
    MergeSplits(j, fuel, defs, base, over, merged, v);
    NodeMatters(Unfolded(j), fuel, defs, base, merged, base, v);
    ScalarsAnywhere(j, fuel, defs, over, merged, fuel, over, v);
  }

  lemma MergeAddsThere(j: Judge, fuel: nat, defs: Definitions, base: Members, over: Members, name: string, v: Json)
    requires Adds(defs, over, base) && Target(defs, base) == Some(name) && Target(defs, Merge(base, over)) == Some(name)
    requires Unfolding(defs, Merge(base, over), name) == Merge(Unfolding(defs, base, name), over)
    requires fuel > 0 ==>
      Sat(Unfolded(j), fuel - 1, defs, Obj(Merge(Unfolding(defs, base, name), over)), v)
      == (Sat(Unfolded(j), fuel - 1, defs, Obj(Unfolding(defs, base, name)), v)
          && AllHold(Unfolded(j), fuel - 1, defs, over, over, v))
    ensures Sat(Unfolded(j), fuel, defs, Obj(Merge(base, over)), v)
            == (Sat(Unfolded(j), fuel, defs, Obj(base), v) && AllHold(Unfolded(j), fuel, defs, over, over, v))
  {
    if fuel > 0 {
      ScalarsAnywhere(j, fuel, defs, over, over, fuel - 1, over, v);
    }
  }

  lemma NothingReplaced(defs: Definitions, over: Members, base: Members)
    requires Adds(defs, over, base)
    ensures "$ref" !in Keys(over) && "properties" !in Keys(over)
    ensures forall k | k in Keys(over) :: Inert(k) || (KeywordOf(k) == Scalar && k !in Keys(base))
  {
    forall k | k in Keys(over) && !Inert(k) ensures k !in Keys(base) {
      assert Fresh(0, defs, base, k);
    }
  }

  lemma StillAdds(defs: Definitions, over: Members, base: Members, name: string)
    requires Adds(defs, over, base) && Target(defs, base) == Some(name)
    ensures Adds(defs, over, Unfolding(defs, base, name))
  {
    forall k, n: nat | k in Keys(over) && !Inert(k) ensures Fresh(n, defs, Unfolding(defs, base, name), k) {
      assert Fresh(n + 1, defs, base, k);
    }
  }

  lemma UnfoldingMerged(defs: Definitions, base: Members, over: Members, name: string)
    requires name in defs && defs[name].Obj? && MembersAreDicts(base) && MembersAreDicts(over) && "$ref" !in Keys(over)
    ensures Unfolding(defs, Merge(base, over), name) == Merge(Unfolding(defs, base, name), over)
  {
    WithoutMerge(base, over, "$ref");
    WithoutKeepsDict(base, "$ref");
    MergeAssociates(defs[name].members, Without(base, "$ref"), over);
  }

  // ---------- there unfolding is what the standard asks for ----------

  lemma {:induction false} ReferenceSplits(j: Judge, fuel: nat, defs: Definitions, ms: Members, node: Members, v: Json)
    requires MembersAreDicts(ms)
    ensures AllHold(Declared(j), fuel, defs, ms, node, v)
            == (AllHold(Declared(j), fuel, defs, Without(ms, "$ref"), node, v)
                && ("$ref" in Keys(ms) ==> Holds(Declared(j), fuel, defs, "$ref", Get(ms, "$ref").value, node, v)))
  {
    if ms.Member? {
      ReferenceSplits(j, fuel, defs, ms.rest, node, v);
    }
  }

  lemma {:induction false} UnfoldedIsDeclared(j: Judge, fuel: nat, defs: Definitions, schema: Json, v: Json)
    requires DictDefinitions(defs) && IsDict(schema) && Apart(defs, schema)
    requires forall name | name in defs :: Apart(defs, defs[name])
    ensures Sat(Unfolded(j), fuel, defs, schema, v) == Sat(Declared(j), fuel, defs, schema, v)
    decreases fuel, schema, 0
  {
    if schema.Obj? {
      if Target(defs, schema.members).Some? {
        var name := Target(defs, schema.members).value;
        if fuel > 0 {
          UnfoldedIsDeclared(j, fuel - 1, defs, defs[name], v);
        }
        ReferenceIsDeclared(j, fuel, defs, schema.members, name, v);
      } else {
        UnfoldedMembers(j, fuel, defs, schema.members, schema.members, v);
      }
    }
  }

  lemma ReferenceIsDeclared(j: Judge, fuel: nat, defs: Definitions, ms: Members, name: string, v: Json)
    requires DictDefinitions(defs) && MembersAreDicts(ms) && Target(defs, ms) == Some(name)
    requires Adds(defs, Without(ms, "$ref"), defs[name].members)
    requires fuel > 0 ==>
      Sat(Unfolded(j), fuel - 1, defs, defs[name], v) == Sat(Declared(j), fuel - 1, defs, defs[name], v)
    ensures Sat(Unfolded(j), fuel, defs, Obj(ms), v) == Sat(Declared(j), fuel, defs, Obj(ms), v)
  {
    var over := Without(ms, "$ref");
    ReferenceSplits(j, fuel, defs, ms, ms, v);
    if fuel > 0 {
      WithoutKeepsDict(ms, "$ref");
      MergeAdds(j, fuel - 1, defs, defs[name].members, over, v);
      ScalarsAnywhere(j, fuel, defs, over, ms, fuel - 1, over, v);
    }
  }

  lemma {:induction false} UnfoldedMembers(j: Judge, fuel: nat, defs: Definitions, ms: Members, node: Members, v: Json)
    requires DictDefinitions(defs) && MembersAreDicts(ms) && ApartMembers(defs, ms)
    requires forall name | name in defs :: Apart(defs, defs[name])
    ensures AllHold(Unfolded(j), fuel, defs, ms, node, v) == AllHold(Declared(j), fuel, defs, ms, node, v)
    decreases fuel, ms, 3
  {
    if ms.Member? {
      UnfoldedArgument(j, fuel, defs, ms.key, ms.value, node, v);
      UnfoldedMembers(j, fuel, defs, ms.rest, node, v);
    }
  }

  lemma {:induction false} UnfoldedArgument(j: Judge, fuel: nat, defs: Definitions, key: string, arg: Json,
                                            node: Members, v: Json)
    requires DictDefinitions(defs) && IsDict(arg) && ApartArgument(defs, key, arg)
    requires forall name | name in defs :: Apart(defs, defs[name])
    ensures Holds(Unfolded(j), fuel, defs, key, arg, node, v) == Holds(Declared(j), fuel, defs, key, arg, node, v)
    decreases fuel, arg, 2
  {
    var kw := KeywordOf(key);
    if kw == Reference {
      if arg.Str? && PREFIX <= arg.s && arg.s[|PREFIX|..] in defs && fuel > 0 {
        UnfoldedIsDeclared(j, fuel - 1, defs, defs[arg.s[|PREFIX|..]], v);
      }
    } else if kw == AnyOf || kw == OneOf || kw == AllOf {
      if arg.Arr? {
        UnfoldedCount(j, fuel, defs, arg.items, v);
      }
    } else if kw == EachItem || kw == AdditionalProperties {
      UnfoldedEach(j, fuel, defs, key, arg, node, v);
    } else if kw == Properties && arg.Obj? && v.Obj? {
      UnfoldedProperties(j, fuel, defs, arg.members, v.members);
    }
  }

  lemma {:induction false} UnfoldedEach(j: Judge, fuel: nat, defs: Definitions, key: string, arg: Json, node: Members,
                                        v: Json)
    requires DictDefinitions(defs) && IsDict(arg) && Apart(defs, arg)
    requires forall name | name in defs :: Apart(defs, defs[name])
    requires KeywordOf(key) in {EachItem, AdditionalProperties}
    ensures Holds(Unfolded(j), fuel, defs, key, arg, node, v) == Holds(Declared(j), fuel, defs, key, arg, node, v)
    decreases fuel, arg, 1
  {
    forall x {:trigger Sat(Unfolded(j), fuel, defs, arg, x)}
      ensures Sat(Unfolded(j), fuel, defs, arg, x) == Sat(Declared(j), fuel, defs, arg, x)
    {
      UnfoldedIsDeclared(j, fuel, defs, arg, x);
    }
  }

  lemma {:induction false} UnfoldedCount(j: Judge, fuel: nat, defs: Definitions, items: Items, v: Json)
    requires DictDefinitions(defs) && ItemsAreDicts(items) && ApartItems(defs, items)
    requires forall name | name in defs :: Apart(defs, defs[name])
    ensures Count(Unfolded(j), fuel, defs, items, v) == Count(Declared(j), fuel, defs, items, v)
    decreases fuel, items, 0
  {
    if items.Item? {
      UnfoldedIsDeclared(j, fuel, defs, items.head, v);
      UnfoldedCount(j, fuel, defs, items.tail, v);
    }
  }

  lemma {:induction false} UnfoldedProperties(j: Judge, fuel: nat, defs: Definitions, props: Members, obj: Members)
    requires DictDefinitions(defs) && MembersAreDicts(props) && ApartProperties(defs, props)
    requires forall name | name in defs :: Apart(defs, defs[name])
    ensures PropertiesHold(Unfolded(j), fuel, defs, props, obj) == PropertiesHold(Declared(j), fuel, defs, props, obj)
    decreases fuel, props, 0
  {
    if props.Member? {
      match Get(obj, props.key) {
        case Some(x) => UnfoldedIsDeclared(j, fuel, defs, props.value, x);
        case None =>
      }
      UnfoldedProperties(j, fuel, defs, props.rest, obj);
    }
  }
}
