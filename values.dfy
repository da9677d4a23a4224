/**
 * Python values as they travel through the ORM objects, the JSON columns and the
 * `model_dump()` dictionaries of the service.
 */
module Values {
  import opened Wrappers

  /** A Python value: `None`, a bool, an int, a str, a list, a str-keyed dict or
      the bytes a base64 text decodes to. (Floating-point numbers never reach the
      modelled code: temperatures and token limits are stored as strings.) */
  datatype Value =
    | Null
    | Bool(b: bool)
    | Int(i: int)
    | Str(s: string)
    | List(items: seq<Value>)
    | Dict(entries: map<string, Value>)
    | Bytes(octets: seq<bv8>)

  /** Python truthiness: `bool(v)`. */
  predicate Truthy(v: Value) {
    match v
    case Null => false
    case Bool(b) => b
    case Int(i) => i != 0
    case Str(s) => s != ""
    case List(xs) => xs != []
    case Dict(m) => m != map[]
    case Bytes(bs) => bs != []
  }

  /** `type(v).__name__`, as Python's error messages quote it. */
  function TypeName(v: Value): string {
    match v
    case Null => "NoneType"
    case Bool(_) => "bool"
    case Int(_) => "int"
    case Str(_) => "str"
    case List(_) => "list"
    case Dict(_) => "dict"
    case Bytes(_) => "bytes"
  }

  /** A persisted record: column name to value. */
  type Row = map<string, Value>

  /** Attribute access on a loaded record; a column the record lacks reads as NULL. */
  function Attr(r: Row, column: string): Value {
    if column in r then r[column] else Null
  }

  /** One `key=value` entry of an ordered keyword-argument dictionary. */
  datatype Field = Field(key: string, value: Value)

  /** An ordered dictionary, as `model_dump()` or a literal `{...}` builds it. */
  type Fields = seq<Field>

  function Keys(fs: Fields): (ks: seq<string>)
    ensures |ks| == |fs|
    ensures forall i | 0 <= i < |fs| :: ks[i] == fs[i].key
  {
    seq(|fs|, i requires 0 <= i < |fs| => fs[i].key)
  }

  /** The value a dictionary holds for `key`: the last entry with that key wins, as
      it does when the entries are applied one after the other. */
  function Lookup(fs: Fields, key: string): (r: Option<Value>)
    ensures r.None? <==> key !in Keys(fs)
  {
    LookupBefore(fs, key, |fs|)
  }

  /** The value the last entry before position `n` with that key holds. */
  function LookupBefore(fs: Fields, key: string, n: nat): (r: Option<Value>)
    requires n <= |fs|
    ensures r.None? <==> key !in Keys(fs)[..n]
  {
    if n == 0 then None
    else if fs[n - 1].key == key then Some(fs[n - 1].value)
    else
      assert Keys(fs)[..n] == Keys(fs)[..n - 1] + [fs[n - 1].key];
      LookupBefore(fs, key, n - 1)
  }

  /** Looking up in a prefix only sees the entries of that prefix. */
  lemma {:induction false} LookupPrefix(fs: Fields, key: string, n: nat, m: nat)
    requires m <= n <= |fs|
    ensures LookupBefore(fs[..n], key, m) == LookupBefore(fs, key, m)
  {
    if m > 0 {
      LookupPrefix(fs, key, n, m - 1);
    }
  }

  /** The entry at position `k` decides the lookup of its key when no later entry has
      that key. */
  lemma LookupAt(fs: Fields, k: nat)
    requires k < |fs|
    requires forall j | k < j < |fs| :: fs[j].key != fs[k].key
    ensures Lookup(fs, fs[k].key) == Some(fs[k].value)
  {
    LookupSkip(fs, fs[k].key, |fs|, k);
  }

  lemma {:induction false} LookupSkip(fs: Fields, key: string, n: nat, k: nat)
    requires k < n <= |fs| && fs[k].key == key
    requires forall j | k < j < n :: fs[j].key != key
    ensures LookupBefore(fs, key, n) == Some(fs[k].value)
  {
    if n > k + 1 {
      LookupSkip(fs, key, n - 1, k);
    }
  }

  /** A value found by a lookup is the value of an entry with that key. */
  lemma {:induction false} LookupFrom(fs: Fields, key: string, n: nat)
    requires n <= |fs|
    ensures LookupBefore(fs, key, n).Some? ==>
      exists k | 0 <= k < n :: fs[k].key == key && fs[k].value == LookupBefore(fs, key, n).value
  {
    if n > 0 && fs[n - 1].key != key {
      LookupFrom(fs, key, n - 1);
    }
  }
}
