/** A JSON tree, as the decoders see it after parsing. */
module Json {
  import opened Wrappers

  datatype Json =
    | Null
    | Bool(b: bool)
    | Num(value: real, isInt: bool)
    | Str(s: string)
    | Arr(items: seq<Json>)
    | Obj(members: seq<(string, Json)>)

  datatype Kind = Boolean | Object | Integer | Number | String | Array

  predicate Is(k: Kind, v: Json) {
    match k
    case Boolean => v.Bool?
    case Object => v.Obj?
    case Integer => v.Num? && v.isInt
    case Number => v.Num?
    case String => v.Str?
    case Array => v.Arr?
  }

  /** The first member of that name. */
  function FindMember(members: seq<(string, Json)>, name: string): Option<Json> {
    if members == [] then None
    else if members[0].0 == name then Some(members[0].1)
    else FindMember(members[1..], name)
  }

  function Find(v: Json, name: string): Option<Json> {
    if v.Obj? then FindMember(v.members, name) else None
  }

  /** getOptionalMember succeeds: the member is absent or has the type. */
  predicate OptionalOk(k: Kind, v: Json, name: string) {
    v.Obj? && (Find(v, name).Some? ==> Is(k, Find(v, name).value))
  }

  /** getRequiredMember succeeds. */
  predicate RequiredOk(k: Kind, v: Json, name: string) {
    v.Obj? && Find(v, name).Some? && Is(k, Find(v, name).value)
  }

  // ---------- Total accessors: a default stands for a value of another type ----------

  function Get(v: Json, name: string): Json {
    var m := Find(v, name);
    if m.Some? then m.value else Null
  }

  function StringOf(v: Json): string {
    if v.Str? then v.s else ""
  }

  function NumberOf(v: Json): real {
    if v.Num? then v.value else 0.0
  }

  function IntOf(v: Json): int {
    NumberOf(v).Floor
  }

  function BoolOf(v: Json): bool {
    v.Bool? && v.b
  }

  function ItemsOf(v: Json): seq<Json> {
    if v.Arr? then v.items else []
  }

  function Item(v: Json, i: nat): Json {
    if i < |ItemsOf(v)| then ItemsOf(v)[i] else Null
  }
}
