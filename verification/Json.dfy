// JSON values. Arrays and objects are cons-lists, so that a pass over a schema recurses on its structure.
// An object keeps its members in insertion order, as a Python dict does.
module Json {
  import opened Wrappers

  datatype Json =
    | Null
    | Bool(b: bool)
    | Num(n: real)
    | Str(s: string)
    | Arr(items: Items)
    | Obj(members: Members)

  datatype Items = NoItems | Item(head: Json, tail: Items)

  datatype Members = NoMembers | Member(key: string, value: Json, rest: Members)

  function Elements(items: Items): set<Json> {
    match items
    case NoItems => {}
    case Item(head, tail) => {head} + Elements(tail)
  }

  function Length(items: Items): nat {
    if items.NoItems? then 0 else 1 + Length(items.tail)
  }

  function Keys(ms: Members): set<string> {
    match ms
    case NoMembers => {}
    case Member(key, _, rest) => {key} + Keys(rest)
  }

  function Get(ms: Members, key: string): (r: Option<Json>)
    ensures r.Some? <==> key in Keys(ms)
  {
    match ms
    case NoMembers => None
    case Member(k, value, rest) => if k == key then Some(value) else Get(rest, key)
  }

  /** The dict assignment `d[key] = value`: an existing key keeps its place. */
  function Set(ms: Members, key: string, value: Json): (r: Members)
    ensures Keys(r) == Keys(ms) + {key}
    ensures Get(r, key) == Some(value)
    ensures forall k | k != key :: Get(r, k) == Get(ms, k)
  {
    match ms
    case NoMembers => Member(key, value, NoMembers)
    case Member(k, v, rest) =>
      if k == key then Member(k, value, rest) else Member(k, v, Set(rest, key, value))
  }

  /** The dict display `{**base, **over}`. */
  function Merge(base: Members, over: Members): (r: Members)
    ensures Keys(r) == Keys(base) + Keys(over)
    decreases over
  {
    match over
    case NoMembers => base
    case Member(key, value, rest) => Merge(Set(base, key, value), rest)
  }

  function Without(ms: Members, key: string): (r: Members)
    ensures Keys(r) == Keys(ms) - {key}
  {
    match ms
    case NoMembers => NoMembers
    case Member(k, value, rest) =>
      if k == key then Without(rest, key) else Member(k, value, Without(rest, key))
  }

  /** The keys of an object as a JSON array of strings: `list(d)`. */
  function KeyList(ms: Members): Items {
    match ms
    case NoMembers => NoItems
    case Member(key, _, rest) => Item(Str(key), KeyList(rest))
  }

  /** Every object inside has distinct keys: what a Python dict guarantees. */
  ghost predicate IsDict(j: Json) {
    match j
    case Arr(items) => ItemsAreDicts(items)
    case Obj(ms) => MembersAreDicts(ms)
    case _ => true
  }

  ghost predicate ItemsAreDicts(items: Items) {
    items.Item? ==> IsDict(items.head) && ItemsAreDicts(items.tail)
  }

  ghost predicate MembersAreDicts(ms: Members) {
    ms.Member? ==> ms.key !in Keys(ms.rest) && IsDict(ms.value) && MembersAreDicts(ms.rest)
  }
}
