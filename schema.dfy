/**
 * Terraform's `schema.ResourceData` as the mapping layer sees it: a flat record from
 * attribute name to value, plus the resource ID. Nested blocks (`secondary_ip`,
 * `prefix_list`, `route_target`, ...) are lists of small records.
 */
module Schema {
  import opened Common

  /** An attribute value: a scalar, or a list of nested blocks. */
  datatype Value = Str(s: string) | Int(i: int) | Bool(b: bool) | List(items: seq<map<string, Value>>)

  /** One element of a block list, keyed by the block's own attribute names. */
  type Block = map<string, Value>

  /** The declared (or read-back) state of one resource instance. */
  type Record = map<string, Value>

  /** The zero value of each kind: what GetOk treats as "not set". */
  predicate IsZero(v: Value) {
    match v
    case Str(s) => s == ""
    case Int(i) => i == 0
    case Bool(b) => !b
    case List(items) => items == []
  }

  /** `d.GetOk(key)`: the value, when the attribute is present and not its zero value. */
  function GetOk(rec: Record, key: string): (r: Option<Value>)
    ensures r.Some? <==> key in rec && !IsZero(rec[key])
    ensures r.Some? ==> r.value == rec[key]
  {
    if key in rec && !IsZero(rec[key]) then Some(rec[key]) else None
  }

  /** `if v, ok := d.GetOk(key); ok { if s, ok := v.(string); ok { ... } }` */
  function OkString(rec: Record, key: string): (r: Option<string>)
    ensures r.Some? <==> key in rec && rec[key].Str? && rec[key].s != ""
    ensures r.Some? ==> rec[key] == Str(r.value)
  {
    match GetOk(rec, key)
    case Some(Str(s)) => Some(s)
    case _ => None
  }

  /** The same idiom for `v.(int)`. */
  function OkInt(rec: Record, key: string): (r: Option<int>)
    ensures r.Some? <==> key in rec && rec[key].Int? && rec[key].i != 0
    ensures r.Some? ==> rec[key] == Int(r.value)
  {
    match GetOk(rec, key)
    case Some(Int(i)) => Some(i)
    case _ => None
  }

  /**
   * The same idiom for `v.(bool)` followed by `if b`: since false is the zero value,
   * GetOk only reports a bool that is true.
   */
  predicate OkTrue(rec: Record, key: string)
    ensures OkTrue(rec, key) <==> key in rec && rec[key] == Bool(true)
  {
    GetOk(rec, key) == Some(Bool(true))
  }

  /** `d.Get(key).(string)`: the zero value when the attribute is not set. */
  function GetString(rec: Record, key: string): string {
    if key in rec && rec[key].Str? then rec[key].s else ""
  }

  /** `d.Get(key).(int)`. */
  function GetInt(rec: Record, key: string): int {
    if key in rec && rec[key].Int? then rec[key].i else 0
  }

  /** `d.Get(key).([]interface{})`. */
  function GetList(rec: Record, key: string): seq<Block> {
    if key in rec && rec[key].List? then rec[key].items else []
  }

  /** Schema typing of one optional attribute: when present, it has the declared kind. */
  predicate StrAttr(rec: Record, key: string) {
    key in rec ==> rec[key].Str?
  }

  predicate IntAttr(rec: Record, key: string) {
    key in rec ==> rec[key].Int?
  }

  predicate BoolAttr(rec: Record, key: string) {
    key in rec ==> rec[key].Bool?
  }

  predicate ListAttr(rec: Record, key: string) {
    key in rec ==> rec[key].List?
  }

  /** A nested block attribute of string kind. */
  predicate HasStr(b: Block, key: string) {
    key in b && b[key].Str?
  }

  predicate HasInt(b: Block, key: string) {
    key in b && b[key].Int?
  }

  /** `after` agrees with `before` on every attribute outside `written`. */
  predicate KeepsOutside(before: Record, after: Record, written: set<string>) {
    forall k :: k in before && k !in written ==> k in after && after[k] == before[k]
  }

  /**
   * After `d.Set(key, v)`, GetOk reports `v` for `key` unless `v` is its zero value, and
   * reports every other attribute as before.
   */
  lemma GetOkAfterSet(rec: Record, key: string, v: Value, other: string)
    ensures GetOk(rec[key := v], key) == if IsZero(v) then None else Some(v)
    ensures other != key ==> GetOk(rec[key := v], other) == GetOk(rec, other)
  {
  }

  /**
   * A live `*schema.ResourceData`. The mapping layer only ever writes it through `Set`
   * and `SetId`, one attribute at a time.
   */
  class ResourceData {
    var attrs: Record
    var id: string

    constructor (attrs: Record)
      ensures this.attrs == attrs && id == ""
    {
      this.attrs := attrs;
      id := "";
    }

    /** `d.Set(key, v)`. */
    method Set(key: string, v: Value)
      modifies this
      ensures attrs == old(attrs)[key := v] && id == old(id)
    {
      attrs := attrs[key := v];
    }

    /** `d.SetId(s)`; `SetId("")` marks the resource as gone. */
    method SetId(s: string)
      modifies this
      ensures id == s && attrs == old(attrs)
    {
      id := s;
    }
  }
}
