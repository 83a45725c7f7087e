/**
  * Parsed JSON / YAML values as Python sees them after `json.loads` or
  * `yaml.safe_load`: `None`, booleans, integers, strings, lists and dicts.
  * A dict keeps its entries in insertion order, as Python's does; when a key
  * occurs twice the later value is the one a lookup sees and the key keeps the
  * place of its first occurrence.
  */
module Json {
  import opened Options
  import opened Seqs

  datatype Json =
    | JNull
    | JBool(b: bool)
    | JInt(i: int)
    | JStr(s: string)
    | JArr(items: seq<Json>)
    | JObj(fields: seq<(string, Json)>)

  /** The keys of a dict's entries, in entry order (with repetitions). */
  function EntryKeys(fields: seq<(string, Json)>): (ks: seq<string>)
    ensures |ks| == |fields| && forall i :: 0 <= i < |fields| ==> ks[i] == fields[i].0
  {
    seq(|fields|, i requires 0 <= i < |fields| => fields[i].0)
  }

  /** `key in d`. */
  predicate HasKey(fields: seq<(string, Json)>, key: string) {
    key in EntryKeys(fields)
  }

  /** `d.get(key)`: the value of the last entry with that key. */
  function Lookup(fields: seq<(string, Json)>, key: string): (r: Option<Json>)
    ensures r.Some? <==> HasKey(fields, key)
    ensures r.Some? ==> (key, r.value) in fields
  {
    if fields == [] then None
    else
      var last := fields[|fields| - 1];
      assert forall i :: 0 <= i < |fields| - 1 ==> EntryKeys(fields)[i] == EntryKeys(fields[..|fields| - 1])[i];
      assert EntryKeys(fields) == EntryKeys(fields[..|fields| - 1]) + [last.0];
      if last.0 == key then Some(last.1) else Lookup(fields[..|fields| - 1], key)
  }

  /** The entry at `i` is the last one with its key, so a lookup finds it. */
  lemma {:induction false} LookupAt(fields: seq<(string, Json)>, i: nat)
    requires i < |fields|
    requires forall j :: i < j < |fields| ==> fields[j].0 != fields[i].0
    ensures Lookup(fields, fields[i].0) == Some(fields[i].1)
  {
    if i < |fields| - 1 {
      var init := fields[..|fields| - 1];
      LookupAt(init, i);
    }
  }

  /** `d.get(key, default)`. */
  function Get(fields: seq<(string, Json)>, key: string, default: Json): Json {
    Lookup(fields, key).GetOr(default)
  }

  /** The keys of a dict in iteration order: each once, where it was first inserted. */
  function Keys(fields: seq<(string, Json)>): seq<string> {
    Dedup(EntryKeys(fields))
  }

  /** `len(v)` is defined for strings, lists and dicts only. */
  predicate HasLen(v: Json) {
    v.JStr? || v.JArr? || v.JObj?
  }

  /** `len(v)`. */
  function Len(v: Json): (n: nat)
    requires HasLen(v)
    ensures v.JArr? ==> n == |v.items|
    ensures v.JStr? ==> n == |v.s|
  {
    match v
    case JStr(s) => |s|
    case JArr(xs) => |xs|
    case JObj(fields) => |Keys(fields)|
  }

  /** `bool(v)`: `None`, `False`, `0` and empty strings, lists and dicts are false. */
  predicate Truthy(v: Json) {
    match v
    case JNull => false
    case JBool(b) => b
    case JInt(i) => i != 0
    case JStr(s) => s != []
    case JArr(xs) => xs != []
    case JObj(fields) => fields != []
  }

  /** Python's name of the type of `v`, as it appears in a `TypeError` message. */
  function TypeName(v: Json): string {
    match v
    case JNull => "NoneType"
    case JBool(_) => "bool"
    case JInt(_) => "int"
    case JStr(_) => "str"
    case JArr(_) => "list"
    case JObj(_) => "dict"
  }

  /** A dict with string values, in the given order. */
  function StrDict(entries: seq<(string, string)>): (v: Json)
    ensures v.JObj? && |v.fields| == |entries|
    ensures forall i :: 0 <= i < |entries| ==> v.fields[i] == (entries[i].0, JStr(entries[i].1))
  {
    JObj(seq(|entries|, i requires 0 <= i < |entries| => (entries[i].0, JStr(entries[i].1))))
  }

  /** A list of strings. */
  function StrList(xs: seq<string>): (v: Json)
    ensures v.JArr? && |v.items| == |xs|
    ensures forall i :: 0 <= i < |xs| ==> v.items[i] == JStr(xs[i])
  {
    JArr(seq(|xs|, i requires 0 <= i < |xs| => JStr(xs[i])))
  }
}
