// What inlining gives, and when it refuses.
module SchemaOutput {
  // The shape of the inliner's output, when it refuses a schema, the loop form of the pass, and where it changes
  // meaning.

  import opened Wrappers
  import opened Json
  import opened SchemaInliner
  import opened SchemaMeaning
  import opened SchemaSiblings

  // ---------- the output needs no further pass ----------

  /**
   * No reference to a definition, no `default` keyword, and `required` exactly after `properties`, listing all of
   * them. Names under `properties` are not keywords.
   */
  ghost predicate SelfContained(schema: Json)
    decreases schema, 0
  {
    match schema
    case Arr(items) => SelfContainedItems(items)
    case Obj(ms) => DefinitionName(ms).None? && SelfContainedMembers(ms)
    case _ => true
  }

  ghost predicate SelfContainedItems(items: Items)
    decreases items, 0
  {
    items.Item? ==> SelfContained(items.head) && SelfContainedItems(items.tail)
  }

  ghost predicate SelfContainedMembers(ms: Members)
    decreases ms, 0
  {
    ms.Member? ==>
      && ms.key != "default" && ms.key != "required"
      && if ms.key == "properties" && ms.value.Obj? then
        && SelfContainedProperties(ms.value.members)
        && ms.rest.Member? && ms.rest.key == "required" && ms.rest.value == Arr(KeyList(ms.value.members))
        && SelfContainedMembers(ms.rest.rest)
      else
        SelfContained(ms.value) && SelfContainedMembers(ms.rest)
  }

  ghost predicate SelfContainedProperties(props: Members)
    decreases props, 0
  {
    props.Member? ==> SelfContained(props.value) && SelfContainedProperties(props.rest)
  }

  lemma {:induction false} OutputIsSelfContained(defs: Definitions, node: Json, seen: seq<string>)
    requires Resolve(defs, node, seen).Ok?
    ensures SelfContained(Resolve(defs, node, seen).value)
    decreases Unseen(defs, seen), node, 0
  {
    match node
    case Arr(items) => ItemsSelfContained(defs, items, seen);
    case Obj(ms) =>
      match DefinitionName(ms) {
        case Some(name) =>
          UnseenShrinks(defs, seen, name);
          OutputIsSelfContained(defs, Obj(Unfolding(defs, ms, name)), seen + [name]);
        case None =>
          MembersSelfContained(defs, ms, seen);
      }
    case _ =>
  }

  lemma {:induction false} ItemsSelfContained(defs: Definitions, items: Items, seen: seq<string>)
    requires ResolveItems(defs, items, seen).Ok?
    ensures SelfContainedItems(ResolveItems(defs, items, seen).value)
    decreases Unseen(defs, seen), items, 0
  {
    if items.Item? {
      OutputIsSelfContained(defs, items.head, seen);
      ItemsSelfContained(defs, items.tail, seen);
    }
  }

  lemma {:induction false} PropertiesSelfContained(defs: Definitions, props: Members, seen: seq<string>)
    requires ResolveProperties(defs, props, seen).Ok?
    ensures SelfContainedProperties(ResolveProperties(defs, props, seen).value)
    decreases Unseen(defs, seen), props, 0
  {
    if props.Member? {
      OutputIsSelfContained(defs, props.value, seen);
      PropertiesSelfContained(defs, props.rest, seen);
    }
  }

  lemma {:induction false} ReferenceKept(defs: Definitions, ms: Members, seen: seq<string>)
    requires ResolveMembers(defs, ms, seen).Ok?
    ensures DefinitionName(ResolveMembers(defs, ms, seen).value) == DefinitionName(ms)
  {
    if ms.Member? {
      ResolvedHead(defs, ms, seen);
      ReferenceKept(defs, ms.rest, seen);
      var out, others := ResolveMembers(defs, ms, seen).value, ResolveMembers(defs, ms.rest, seen).value;
      if ms.key == "$ref" {
        assert Get(out, "$ref") == Some(Resolve(defs, ms.value, seen).value);
      } else {
        assert Get(ms, "$ref") == Get(ms.rest, "$ref");
        assert Get(out, "$ref") == Get(others, "$ref");
      }
    }
  }

  lemma {:induction false} MembersSelfContained(defs: Definitions, ms: Members, seen: seq<string>)
    requires ResolveMembers(defs, ms, seen).Ok?
    ensures SelfContainedMembers(ResolveMembers(defs, ms, seen).value)
    ensures DefinitionName(ResolveMembers(defs, ms, seen).value) == DefinitionName(ms)
    decreases Unseen(defs, seen), ms, 0
  {
    ReferenceKept(defs, ms, seen);
    if ms.Member? {
      ResolvedHead(defs, ms, seen);
      MembersSelfContained(defs, ms.rest, seen);
      if ms.key == "properties" && ms.value.Obj? {
        PropertiesSelfContained(defs, ms.value.members, seen);
      } else if ms.key != "default" && ms.key != "required" {
        OutputIsSelfContained(defs, ms.value, seen);
      }
    }
  }

  /** A second pass, with any definitions, changes nothing. */
  lemma {:induction false} SelfContainedIsFixed(defs: Definitions, schema: Json, seen: seq<string>)
    requires SelfContained(schema)
    ensures Resolve(defs, schema, seen) == Ok(schema)
    decreases schema, 0
  {
    match schema
    case Arr(items) => FixedItems(defs, items, seen);
    case Obj(ms) => FixedMembers(defs, ms, seen);
    case _ =>
  }

  lemma {:induction false} FixedItems(defs: Definitions, items: Items, seen: seq<string>)
    requires SelfContainedItems(items)
    ensures ResolveItems(defs, items, seen) == Ok(items)
    decreases items, 0
  {
    if items.Item? {
      SelfContainedIsFixed(defs, items.head, seen);
      FixedItems(defs, items.tail, seen);
    }
  }

  lemma {:induction false} FixedProperties(defs: Definitions, props: Members, seen: seq<string>)
    requires SelfContainedProperties(props)
    ensures ResolveProperties(defs, props, seen) == Ok(props)
    decreases props, 0
  {
    if props.Member? {
      SelfContainedIsFixed(defs, props.value, seen);
      FixedProperties(defs, props.rest, seen);
    }
  }

  lemma {:induction false} FixedMembers(defs: Definitions, ms: Members, seen: seq<string>)
    requires SelfContainedMembers(ms)
    ensures ResolveMembers(defs, ms, seen) == Ok(ms)
    decreases ms, 0
  {
    if ms.Member? {
      if ms.key == "properties" && ms.value.Obj? {
        FixedProperties(defs, ms.value.members, seen);
        FixedMembers(defs, ms.rest.rest, seen);
      } else {
        SelfContainedIsFixed(defs, ms.value, seen);
        FixedMembers(defs, ms.rest, seen);
      }
    }
  }

  lemma ResolveIsIdempotent(defs: Definitions, node: Json, seen: seq<string>, defs': Definitions, seen': seq<string>)
    requires Resolve(defs, node, seen).Ok?
    ensures Resolve(defs', Resolve(defs, node, seen).value, seen') == Resolve(defs, node, seen)
  {
    OutputIsSelfContained(defs, node, seen);
    SelfContainedIsFixed(defs', Resolve(defs, node, seen).value, seen');
  }

  // ---------- when the pass refuses a schema ----------

  /** A node under the pass, and the definitions unfolded on the way to it. */
  datatype Place = Place(node: Json, seen: seq<string>)

  function Chain(a: Items, b: Items): (r: Items)
    ensures Elements(r) == Elements(a) + Elements(b)
  {
    match a
    case NoItems => b
    case Item(head, tail) => Item(head, Chain(tail, b))
  }

  function Values(ms: Members): Items {
    match ms
    case NoMembers => NoItems
    case Member(_, value, rest) => Item(value, Values(rest))
  }

  /** The values under the keys the pass follows. */
  function Followed(ms: Members): Items {
    match ms
    case NoMembers => NoItems
    case Member(key, value, rest) =>
      if key == "default" || key == "required" then Followed(rest)
      else if key == "properties" && value.Obj? then Chain(Values(value.members), Followed(rest))
      else Item(value, Followed(rest))
  }

  function Children(node: Json): Items {
    match node
    case Arr(items) => items
    case Obj(ms) => if DefinitionName(ms).None? then Followed(ms) else NoItems
    case _ => NoItems
  }

  /** Why the pass stops at this place, if it does. */
  function Refusal(defs: Definitions, at: Place): Option<Failure> {
    if at.node.Obj? && DefinitionName(at.node.members).Some? then
      var name := DefinitionName(at.node.members).value;
      if name in at.seen then Some(Recursive(name))
      else if name !in defs then Some(UnknownDefinition(name))
      else if !defs[name].Obj? then Some(NotAnObject(name))
      else None
    else None
  }

  ghost predicate Leads(defs: Definitions, a: Place, b: Place) {
    if a.node.Obj? && DefinitionName(a.node.members).Some? then
      var name := DefinitionName(a.node.members).value;
      Refusal(defs, a).None? && b == Place(Obj(Unfolding(defs, a.node.members, name)), a.seen + [name])
    else
      b.seen == a.seen && b.node in Elements(Children(a.node))
  }

  ghost predicate IsPath(defs: Definitions, from: Place, path: seq<Place>) {
    && |path| > 0 && path[0] == from
    && forall i | 0 <= i < |path| - 1 :: Leads(defs, path[i], path[i + 1])
  }

  lemma {:induction false} ItemsRefused(defs: Definitions, items: Items, seen: seq<string>)
    ensures ResolveItems(defs, items, seen).Err? ==>
      exists x | x in Elements(items) :: Resolve(defs, x, seen) == Err(ResolveItems(defs, items, seen).error)
    ensures forall x | x in Elements(items) && Resolve(defs, x, seen).Err? :: ResolveItems(defs, items, seen).Err?
  {
    if items.Item? {
      ItemsRefused(defs, items.tail, seen);
      assert items.head in Elements(items);
    }
  }

  lemma {:induction false} PropertiesRefused(defs: Definitions, props: Members, seen: seq<string>)
    ensures ResolveProperties(defs, props, seen).Err? ==>
      exists x | x in Elements(Values(props)) :: Resolve(defs, x, seen)
          == Err(ResolveProperties(defs, props, seen).error)
    ensures forall x | x in Elements(Values(props))
            && Resolve(defs, x, seen).Err? :: ResolveProperties(defs, props, seen).Err?
  {
    if props.Member? {
      PropertiesRefused(defs, props.rest, seen);
      assert props.value in Elements(Values(props));
    }
  }

  lemma {:induction false} MembersRefused(defs: Definitions, ms: Members, seen: seq<string>)
    ensures ResolveMembers(defs, ms, seen).Err? ==>
      exists x | x in Elements(Followed(ms)) :: Resolve(defs, x, seen) == Err(ResolveMembers(defs, ms, seen).error)
    ensures forall x | x in Elements(Followed(ms)) && Resolve(defs, x, seen).Err? :: ResolveMembers(defs, ms, seen).Err?
  {
    if ms.Member? {
      MembersRefused(defs, ms.rest, seen);
      assert Followed(ms).Item? ==> Followed(ms).head in Elements(Followed(ms));
      if ms.key == "properties" && ms.value.Obj? {
        PropertiesRefused(defs, ms.value.members, seen);
      }
    }
  }

  /** A refused node is refused where it stands, or because of a node it leads to, with the same error. */
  lemma RefusedThere(defs: Definitions, at: Place) returns (next: Place)
    requires Resolve(defs, at.node, at.seen).Err? && Refusal(defs, at).None?
    ensures Leads(defs, at, next) && Resolve(defs, next.node, next.seen) == Resolve(defs, at.node, at.seen)
    ensures at.node.Obj? && DefinitionName(at.node.members).Some? ==> Unseen(defs, next.seen) < Unseen(defs, at.seen)
    ensures !(at.node.Obj? && DefinitionName(at.node.members).Some?)
            ==> next.seen == at.seen && next.node in Elements(Children(at.node))
  {
    match at.node
    case Arr(items) =>
      ItemsRefused(defs, items, at.seen);
      var x :| x in Elements(items) && Resolve(defs, x, at.seen) == Err(ResolveItems(defs, items, at.seen).error);
      next := Place(x, at.seen);
    case Obj(ms) =>
      match DefinitionName(ms) {
        case Some(name) =>
          UnseenShrinks(defs, at.seen, name);
          next := Place(Obj(Unfolding(defs, ms, name)), at.seen + [name]);
        case None =>
          MembersRefused(defs, ms, at.seen);
          var x :| x in Elements(Followed(ms)) && Resolve(defs, x, at.seen)
              == Err(ResolveMembers(defs, ms, at.seen).error);
          next := Place(x, at.seen);
      }
  }

  function Size(j: Json): nat {
    match j
    case Arr(items) => 1 + ItemsSize(items)
    case Obj(ms) => 1 + MembersSize(ms)
    case _ => 1
  }

  function ItemsSize(items: Items): nat {
    if items.NoItems? then 0 else Size(items.head) + ItemsSize(items.tail)
  }

  function MembersSize(ms: Members): nat {
    if ms.NoMembers? then 0 else Size(ms.value) + MembersSize(ms.rest)
  }

  lemma ChildIsSmaller(node: Json, x: Json)
    requires x in Elements(Children(node))
    ensures Size(x) < Size(node)
  {
    match node
    case Arr(items) => ElementIsSmaller(items, x);
    case Obj(ms) => FollowedIsSmaller(ms, x);
  }

  lemma {:induction false} ElementIsSmaller(items: Items, x: Json)
    requires x in Elements(items)
    ensures Size(x) <= ItemsSize(items)
  {
    if x != items.head {
      ElementIsSmaller(items.tail, x);
    }
  }

  lemma {:induction false} FollowedIsSmaller(ms: Members, x: Json)
    requires x in Elements(Followed(ms))
    ensures Size(x) <= MembersSize(ms)
  {
    if x in Elements(Followed(ms.rest)) {
      FollowedIsSmaller(ms.rest, x);
    } else if ms.key == "properties" && ms.value.Obj? {
      ValueIsSmaller(ms.value.members, x);
    }
  }

  lemma {:induction false} ValueIsSmaller(ms: Members, x: Json)
    requires x in Elements(Values(ms))
    ensures Size(x) <= MembersSize(ms)
  {
    if x != ms.value {
      ValueIsSmaller(ms.rest, x);
    }
  }

  /** Every error comes from a place the pass reaches and cannot pass. */
  lemma {:induction false} RefusalIsReached(defs: Definitions, from: Place) returns (path: seq<Place>)
    requires Resolve(defs, from.node, from.seen).Err?
    ensures IsPath(defs, from, path)
    ensures Refusal(defs, path[|path| - 1]) == Some(Resolve(defs, from.node, from.seen).error)
    decreases Unseen(defs, from.seen), Size(from.node)
  {
    path := [from];
    if Refusal(defs, from).None? {
      var next := RefusedThere(defs, from);
      if !(from.node.Obj? && DefinitionName(from.node.members).Some?) {
        ChildIsSmaller(from.node, next.node);
      }
      var more := RefusalIsReached(defs, next);
      path := [from] + more;
    }
  }

  /** And reaching such a place makes the whole pass fail. */
  lemma {:induction false} ReachedIsRefused(defs: Definitions, from: Place, path: seq<Place>)
    requires IsPath(defs, from, path) && Refusal(defs, path[|path| - 1]).Some?
    ensures Resolve(defs, from.node, from.seen).Err?
    decreases |path|
  {
    if |path| > 1 {
      var next := path[1];
      assert Leads(defs, path[0], path[1]);
      forall i | 0 <= i < |path[1..]| - 1 ensures Leads(defs, path[1..][i], path[1..][i + 1]) {
        assert Leads(defs, path[i + 1], path[i + 2]);
      }
      ReachedIsRefused(defs, next, path[1..]);
      if from.node.Arr? {
        ItemsRefused(defs, from.node.items, from.seen);
      } else if DefinitionName(from.node.members).None? {
        MembersRefused(defs, from.node.members, from.seen);
      }
    }
  }

  ghost predicate Reaches(defs: Definitions, from: Place, why: Failure) {
    exists path :: IsPath(defs, from, path) && Refusal(defs, path[|path| - 1]) == Some(why)
  }

  /**
   * Where every reference names an object definition, the pass fails exactly when some path meets a definition twice.
   */
  lemma RecursionIsFound(defs: Definitions, node: Json)
    requires forall name :: !Reaches(defs, Place(node, []), UnknownDefinition(name))
    requires forall name :: !Reaches(defs, Place(node, []), NotAnObject(name))
    ensures Resolve(defs, node, []).Err? <==> exists name :: Reaches(defs, Place(node, []), Recursive(name))
    ensures Resolve(defs, node, []).Err? ==> Resolve(defs, node, []).error.Recursive?
  {
    var from := Place(node, []);
    if Resolve(defs, node, []).Err? {
      var path := RefusalIsReached(defs, from);
      var why := Resolve(defs, node, []).error;
      assert Reaches(defs, from, why);
      assert why == Recursive(why.name) by {
        assert why != UnknownDefinition(why.name) && why != NotAnObject(why.name);
      }
    }
    if name :| Reaches(defs, from, Recursive(name)) {
      var path :| IsPath(defs, from, path) && Refusal(defs, path[|path| - 1]) == Some(Recursive(name));
      ReachedIsRefused(defs, from, path);
    }
  }
}
