/**
 * The PHP values a decoded Elasticsearch response is made of. A JSON object
 * decodes to a `stdClass` object (`Obj`), a JSON array to a PHP list (`Arr`
 * with positional keys); PHP arrays built in code are `Arr` with named keys.
 * Floating-point numbers (relevance scores) are carried as opaque `Float`
 * values: nothing here computes with them.
 */
module PhpValues {
  import opened Wrappers
  import opened PhpArrays

  /** A PHP array key: a string or an integer. */
  datatype Key = Name(name: string) | Position(index: int)

  datatype Value =
    | Null
    | Bool(b: bool)
    | Int(i: int)
    | Float(f: real)
    | Str(s: string)
    | Arr(entries: seq<(Key, Value)>)
    | Obj(props: seq<(string, Value)>)

  /** PHP's conversion to bool: `if ($v)`. Objects are always true; an array only when non-empty. */
  predicate Truthy(v: Value)
  {
    match v
    case Null => false
    case Bool(b) => b
    case Int(i) => i != 0
    case Float(f) => f != 0.0
    case Str(s) => s != "" && s != "0"
    case Arr(entries) => entries != []
    case Obj(_) => true
  }

  /**
   * `$v?->name ?? null`: the property of an object, and null when `v` is not an
   * object or has no such property (PHP warns and yields null in both cases).
   */
  function Prop(v: Value, name: string): (r: Value)
    ensures v.Obj? && name in KeysOf(v.props) ==> r == Lookup(v.props, name).value
    ensures !v.Obj? || name !in KeysOf(v.props) ==> r == Null
  {
    if v.Obj? then Lookup(v.props, name).GetOr(Null) else Null
  }

  /** Object properties as string-keyed array entries. */
  function Named(props: seq<(string, Value)>): (a: seq<(Key, Value)>)
    ensures |a| == |props|
    ensures forall i :: 0 <= i < |a| ==> a[i] == (Name(props[i].0), props[i].1)
  {
    seq(|props|, i requires 0 <= i < |props| => (Name(props[i].0), props[i].1))
  }

  /** `(array)$v`: an array as is, an object's properties, null as `[]`, any scalar as `[0 => $v]`. */
  function ToArray(v: Value): (a: seq<(Key, Value)>)
  {
    match v
    case Null => []
    case Arr(entries) => entries
    case Obj(props) => Named(props)
    case _ => [(Position(0), v)]
  }

  lemma {:induction false} NamedDistinct(props: seq<(string, Value)>)
    requires Distinct(props)
    ensures Distinct(Named(props))
  {
  }

  lemma {:induction false} LookupNamed(props: seq<(string, Value)>, k: Key)
    ensures Lookup(Named(props), k) == if k.Name? then Lookup(props, k.name) else None
    decreases |props|
  {
    if props != [] {
      LookupNamed(props[1..], k);
      assert Named(props)[1..] == Named(props[1..]);
    }
  }
}
