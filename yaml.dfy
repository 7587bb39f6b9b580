/// The parsed configuration, kept abstract: only the parts of a
/// serde_yaml `Value` the tool looks at (strings and mappings) are
/// distinguished, and the text parser itself is not modelled.
module Yaml {
  import opened Base

  /** A YAML value.  A mapping keeps its entries in document order, as
      serde_yaml's insertion-ordered `Mapping` does; `Other` is every
      value that is neither a string nor a mapping (numbers, booleans,
      null, sequences). */
  datatype Value = Str(s: string) | Mapping(entries: seq<(Value, Value)>) | Other

  /** The configuration file as the tool finds it on disk. */
  datatype ConfigFile = Unreadable | Malformed | Parsed(root: Value)

  /** `fs::read_to_string` followed by `serde_yaml::from_str`. */
  function Load(file: ConfigFile): (r: Result<Value>)
    ensures r.Ok? <==> file.Parsed?
    ensures r.Ok? ==> r.value == file.root
    ensures r.Err? ==> (r.error == ReadFailed <==> file.Unreadable?)
  {
    match file
    case Unreadable => Err(ReadFailed)
    case Malformed => Err(YamlInvalid)
    case Parsed(root) => Ok(root)
  }

  ghost predicate KeyAt(entries: seq<(Value, Value)>, key: string, i: int)
  {
    0 <= i < |entries| && entries[i].0 == Str(key)
  }

  /** The value under the string key `key`: the first entry whose key is
      that string (a parsed mapping never holds a key twice). */
  function Lookup(entries: seq<(Value, Value)>, key: string): Option<Value>
  {
    if entries == [] then None
    else if entries[0].0 == Str(key) then Some(entries[0].1)
    else Lookup(entries[1..], key)
  }

  /** `Lookup` finds nothing exactly when no entry has the key, and
      otherwise the value of the first entry that has it. */
  lemma {:induction false} LookupFinds(entries: seq<(Value, Value)>, key: string)
    ensures Lookup(entries, key).None? <==> forall i :: 0 <= i < |entries| ==> !KeyAt(entries, key, i)
    ensures Lookup(entries, key).Some? ==>
              exists i :: KeyAt(entries, key, i) && entries[i].1 == Lookup(entries, key).value &&
                          forall j :: 0 <= j < i ==> !KeyAt(entries, key, j)
  {
    if entries != [] {
      if entries[0].0 == Str(key) {
        assert KeyAt(entries, key, 0);
      } else {
        assert !KeyAt(entries, key, 0);
        LookupFinds(entries[1..], key);
        assert forall i :: 1 <= i < |entries| ==> (KeyAt(entries, key, i) <==> KeyAt(entries[1..], key, i - 1));
        assert forall j :: 0 <= j < |entries| - 1 ==> (KeyAt(entries[1..], key, j) <==> KeyAt(entries, key, j + 1));
        assert forall i :: 1 <= i < |entries| ==> entries[i] == entries[1..][i - 1];
      }
    }
  }

  /** `Value::get` with a string index: `None` unless the value is a
      mapping holding the key. */
  function Get(v: Value, key: string): (r: Option<Value>)
    ensures !v.Mapping? ==> r.None?
  {
    if v.Mapping? then Lookup(v.entries, key) else None
  }

  /** `Value::as_str`. */
  function AsStr(v: Value): Option<string>
  {
    if v.Str? then Some(v.s) else None
  }

  /** `Value::as_mapping`. */
  function AsMapping(v: Value): Option<seq<(Value, Value)>>
  {
    if v.Mapping? then Some(v.entries) else None
  }
}
