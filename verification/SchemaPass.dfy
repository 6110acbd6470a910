// The inliner as the source runs it, in loops.
module SchemaPass {
  // The inliner as the source runs it, filling `out` in loops; and schemas whose meaning it changes.

  import opened Wrappers
  import opened Json
  import opened SchemaInliner
  import opened SchemaMeaning
  import opened SchemaSiblings

  function Join(a: Items, b: Items): Items {
    if a.NoItems? then b else Item(a.head, Join(a.tail, b))
  }

  function JoinMembers(a: Members, b: Members): (r: Members)
    ensures Keys(r) == Keys(a) + Keys(b)
  {
    if a.NoMembers? then b else Member(a.key, a.value, JoinMembers(a.rest, b))
  }

  lemma JoinAssociates(a: Items, b: Items, c: Items)
    ensures Join(Join(a, b), c) == Join(a, Join(b, c))
  {
  }

  lemma {:induction false} JoinEnds(a: Items, m: Members)
    ensures Join(a, NoItems) == a
    ensures JoinMembers(m, NoMembers) == m
  {
    if a.Item? { JoinEnds(a.tail, m); }
    if m.Member? { JoinEnds(a, m.rest); }
  }

  /** Assigning a new key adds it at the end. */
  lemma {:induction false} NewKeyGoesLast(ms: Members, key: string, value: Json, rest: Members)
    requires key !in Keys(ms)
    ensures JoinMembers(Set(ms, key, value), rest) == JoinMembers(ms, Member(key, value, rest))
  {
    if ms.Member? {
      NewKeyGoesLast(ms.rest, key, value, rest);
    }
  }

  method ResolveNode(defs: Definitions, node: Json, seen: seq<string>) returns (r: Result<Json, Failure>)
    requires IsDict(node) && DictDefinitions(defs)
    ensures r == Resolve(defs, node, seen)
    decreases Unseen(defs, seen), node, 0
  {
    match node
    case Arr(items) =>
      var out := ResolveList(defs, items, seen);
      r := match out case Ok(list) => Ok(Arr(list)) case Err(e) => Err(e);
    case Obj(ms) =>
      match DefinitionName(ms) {
        case Some(name) =>
          if name in seen {
            return Err(Recursive(name));
          } else if name !in defs {
            return Err(UnknownDefinition(name));
          } else if !defs[name].Obj? {
            return Err(NotAnObject(name));
          }
          UnseenShrinks(defs, seen, name);
          UnfoldingIsDict(defs, ms, name);
          r := ResolveNode(defs, Obj(Unfolding(defs, ms, name)), seen + [name]);
        case None =>
          var out := ResolveDict(defs, ms, seen);
          r := match out case Ok(dict) => Ok(Obj(dict)) case Err(e) => Err(e);
      }
    case _ => r := Ok(node);
  }

  method ResolveList(defs: Definitions, items: Items, seen: seq<string>) returns (r: Result<Items, Failure>)
    requires ItemsAreDicts(items) && DictDefinitions(defs)
    ensures r == ResolveItems(defs, items, seen)
    decreases Unseen(defs, seen), items, 0
  {
    var out, rest := NoItems, items;
    while rest.Item?
      invariant rest == items || rest < items
      invariant ItemsAreDicts(rest)
      invariant ResolveItems(defs, items, seen) ==
        match ResolveItems(defs, rest, seen) case Ok(tail) => Ok(Join(out, tail)) case Err(e) => Err(e)
      decreases rest
    {
      var v := ResolveNode(defs, rest.head, seen);
      if v.Err? {
        return Err(v.error);
      }
      if ResolveItems(defs, rest.tail, seen).Ok? {
        JoinAssociates(out, Item(v.value, NoItems), ResolveItems(defs, rest.tail, seen).value);
      }
      out := Join(out, Item(v.value, NoItems));
      rest := rest.tail;
    }
    JoinEnds(out, NoMembers);
    r := Ok(out);
  }

  method ResolvePropertyDict(defs: Definitions, props: Members, seen: seq<string>) returns (r: Result<Members, Failure>)
    requires MembersAreDicts(props) && DictDefinitions(defs)
    ensures r == ResolveProperties(defs, props, seen)
    decreases Unseen(defs, seen), props, 0
  {
    var out, rest := NoMembers, props;
    while rest.Member?
      invariant rest == props || rest < props
      invariant MembersAreDicts(rest) && Keys(out) !! Keys(rest)
      invariant ResolveProperties(defs, props, seen) ==
        match ResolveProperties(defs, rest, seen) case Ok(tail) => Ok(JoinMembers(out, tail)) case Err(e) => Err(e)
      decreases rest
    {
      var v := ResolveNode(defs, rest.value, seen);
      if v.Err? {
        return Err(v.error);
      }
      if ResolveProperties(defs, rest.rest, seen).Ok? {
        NewKeyGoesLast(out, rest.key, v.value, ResolveProperties(defs, rest.rest, seen).value);
      }
      out := Set(out, rest.key, v.value);
      rest := rest.rest;
    }
    JoinEnds(NoItems, out);
    r := Ok(out);
  }

  method ResolveDict(defs: Definitions, ms: Members, seen: seq<string>) returns (r: Result<Members, Failure>)
    requires MembersAreDicts(ms) && DictDefinitions(defs)
    ensures r == ResolveMembers(defs, ms, seen)
    decreases Unseen(defs, seen), ms, 0
  {
    var out, rest := NoMembers, ms;
    while rest.Member?
      invariant rest == ms || rest < ms
      invariant MembersAreDicts(rest) && Keys(out) - {"required"} !! Keys(rest)
      invariant "required" in Keys(out) ==> "properties" !in Keys(rest)
      invariant ResolveMembers(defs, ms, seen) ==
        match ResolveMembers(defs, rest, seen) case Ok(tail) => Ok(JoinMembers(out, tail)) case Err(e) => Err(e)
      decreases rest
    {
      var key, value := rest.key, rest.value;
      ghost var others := ResolveMembers(defs, rest.rest, seen);
      if key == "default" {
      } else if key == "properties" && value.Obj? {
        var props := ResolvePropertyDict(defs, value.members, seen);
        if props.Err? {
          return Err(props.error);
        }
        if others.Ok? {
          NewKeyGoesLast(out, key, Obj(props.value), Member("required", Arr(KeyList(value.members)), others.value));
          NewKeyGoesLast(Set(out, key, Obj(props.value)), "required", Arr(KeyList(value.members)), others.value);
        }
        out := Set(out, key, Obj(props.value));
        out := Set(out, "required", Arr(KeyList(value.members)));
      } else if key != "required" {
        var v := ResolveNode(defs, value, seen);
        if v.Err? {
          return Err(v.error);
        }
        if others.Ok? {
          NewKeyGoesLast(out, key, v.value, others.value);
        }
        out := Set(out, key, v.value);
      }
      rest := rest.rest;
    }
    JoinEnds(NoItems, out);
    r := Ok(out);
  }

  // ---------- schemas outside the regular kind change meaning ----------

  function One(key: string, value: Json): Json {
    Obj(Member(key, value, NoMembers))
  }

  /**
   * A keyword beside a reference replaces the definition's own: 7 passes `maximum: 5` unfolded beside `maximum: 10`.
   */
  lemma SiblingReplacesDefinition(j: Judge)
    ensures var defs := map["Score" := One("maximum", Num(5.0))];
            var node := Obj(Member("$ref", Str("#/$defs/Score"), Member("maximum", Num(10.0), NoMembers)));
            && Resolve(defs, node, []) == Ok(One("maximum", Num(10.0)))
            && Sat(AsIs(j), 0, NODEFS, Resolve(defs, node, []).value, Num(7.0))
            && !Sat(Strict(j), 1, defs, node, Num(7.0))
  {
    var defs := map["Score" := One("maximum", Num(5.0))];
    var ms := Member("$ref", Str("#/$defs/Score"), Member("maximum", Num(10.0), NoMembers));
    SiblingResolves(defs, ms);
    MaximumMeans(AsIs(j), 0, NODEFS, 10.0, 7.0);
    MaximumMeans(Strict(j), 0, defs, 5.0, 7.0);
    ReferenceFails(j, defs, ms);
  }

  lemma SiblingResolves(defs: Definitions, ms: Members)
    requires defs == map["Score" := One("maximum", Num(5.0))]
    requires ms == Member("$ref", Str("#/$defs/Score"), Member("maximum", Num(10.0), NoMembers))
    ensures DefinitionName(ms) == Some("Score")
    ensures Resolve(defs, Obj(ms), []) == Ok(One("maximum", Num(10.0)))
  {
    var over := Member("maximum", Num(10.0), NoMembers);
    assert "#/$defs/Score"[|PREFIX|..] == "Score";
    assert Without(ms, "$ref") == over;
    assert Unfolding(defs, ms, "Score") == over;
    assert DefinitionName(over).None?;
    assert ResolveMembers(defs, over, ["Score"]) == Ok(over);
    assert Resolve(defs, Obj(over), ["Score"]) == Ok(Obj(over));
    assert [] + ["Score"] == ["Score"];
  }

  lemma MaximumMeans(reading: Reading, fuel: nat, defs: Definitions, bound: real, n: real)
    ensures Sat(reading, fuel, defs, One("maximum", Num(bound)), Num(n)) == (n <= bound)
  {
    var ms := Member("maximum", Num(bound), NoMembers);
    assert Holds(reading, fuel, defs, "maximum", Num(bound), ms, Num(n)) == (n <= bound);
    assert AllHold(reading, fuel, defs, NoMembers, ms, Num(n));
    assert AllHold(reading, fuel, defs, ms, ms, Num(n)) == (n <= bound);
  }

  lemma ReferenceFails(j: Judge, defs: Definitions, ms: Members)
    requires ms.Member? && ms.key == "$ref" && DefinitionName(ms) == Some("Score") && "Score" in defs
    requires !Sat(Strict(j), 0, defs, defs["Score"], Num(7.0))
    ensures !Sat(Strict(j), 1, defs, Obj(ms), Num(7.0))
  {
    assert !Holds(Strict(j), 1, defs, "$ref", ms.value, ms, Num(7.0));
  }

  /** A `required` name that is not declared under `properties` is lost. */
  lemma UndeclaredRequiredIsLost(j: Judge)
    ensures var node := One("required", Arr(Item(Str("id"), NoItems)));
            && Resolve(NODEFS, node, []) == Ok(Obj(NoMembers))
            && Sat(AsIs(j), 0, NODEFS, Resolve(NODEFS, node, []).value, Obj(NoMembers))
            && !Sat(Strict(j), 0, NODEFS, node, Obj(NoMembers))
  {
    var names := Item(Str("id"), NoItems);
    var ms := Member("required", Arr(names), NoMembers);
    assert DefinitionName(ms).None?;
    assert ResolveMembers(NODEFS, ms, []) == Ok(NoMembers);
    assert Str("id") in Elements(names);
    assert !Holds(Strict(j), 0, NODEFS, "required", Arr(names), ms, Obj(NoMembers));
  }

  /** A constant object is read as a schema: its `default` member is dropped. */
  lemma ConstantObjectIsRewritten(j: Judge)
    ensures var constant := One("default", Null);
            var node := One("const", constant);
            && Resolve(NODEFS, node, []) == Ok(One("const", Obj(NoMembers)))
            && Sat(Strict(j), 0, NODEFS, node, constant)
            && !Sat(AsIs(j), 0, NODEFS, Resolve(NODEFS, node, []).value, constant)
  {
    var constant := One("default", Null);
    ConstantResolves(constant);
    ConstMeans(Strict(j), constant, constant);
    ConstMeans(AsIs(j), Obj(NoMembers), constant);
  }

  lemma ConstantResolves(constant: Json)
    requires constant == One("default", Null)
    ensures Resolve(NODEFS, One("const", constant), []) == Ok(One("const", Obj(NoMembers)))
  {
    var ms := Member("const", constant, NoMembers);
    assert DefinitionName(constant.members).None? && DefinitionName(ms).None?;
    assert ResolveMembers(NODEFS, constant.members, []) == Ok(NoMembers);
    assert Resolve(NODEFS, constant, []) == Ok(Obj(NoMembers));
    assert ResolveMembers(NODEFS, ms, []) == Ok(Member("const", Obj(NoMembers), NoMembers));
  }

  lemma ConstMeans(reading: Reading, constant: Json, v: Json)
    ensures Sat(reading, 0, NODEFS, One("const", constant), v) == (v == constant)
  {
    var ms := Member("const", constant, NoMembers);
    assert Holds(reading, 0, NODEFS, "const", constant, ms, v) == (v == constant);
    assert AllHold(reading, 0, NODEFS, NoMembers, ms, v);
    assert AllHold(reading, 0, NODEFS, ms, ms, v) == (v == constant);
  }
}
