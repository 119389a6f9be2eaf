/** The dynamically typed values the handlers pass around: parsed JSON
    documents, pandas row dictionaries and the Python exceptions they raise.
    A dictionary is an ordered list of entries, as Python dictionaries keep
    insertion order; its keys are distinct. */
module PyValue {
  import opened Wrappers
  import opened Text

  datatype Value =
    | Null                      // None
    | Bool(b: bool)
    | Int(i: int)
    | Float(x: real)            // a finite float, kept exact
    | NaN                       // float('nan')
    | Str(s: string)
    | List(items: seq<Value>)
    | Dict(entries: seq<Entry>)

  datatype Entry = Entry(key: string, value: Value)

  /** The exceptions the modelled code raises or lets through. */
  datatype Exception =
    | ValueError(message: string)
    | JsonDecodeError           // json.JSONDecodeError, a subclass of ValueError
    | RuntimeError(message: string)
    | AttributeError            // e.g. `.get` on something that is not a dict
    | TypeError                 // e.g. iterating over a number
    | ClientError(code: string) // botocore.exceptions.ClientError
  {
    /** `except ValueError` catches it. */
    predicate IsValueError() {
      ValueError? || JsonDecodeError?
    }
  }

  /** Python truthiness: `bool(v)`. NaN is truthy. */
  predicate Truthy(v: Value) {
    match v
    case Null => false
    case Bool(b) => b
    case Int(i) => i != 0
    case Float(x) => x != 0.0
    case NaN => true
    case Str(s) => s != ""
    case List(items) => items != []
    case Dict(entries) => entries != []
  }

  /** Python's `a or b`: the first operand when it is truthy, else the second. */
  function Or(a: Value, b: Value): Value {
    if Truthy(a) then a else b
  }

  function Keys(d: seq<Entry>): (ks: seq<string>)
    ensures |ks| == |d|
    ensures forall i :: 0 <= i < |d| ==> ks[i] == d[i].key
  {
    if d == [] then [] else [d[0].key] + Keys(d[1..])
  }

  /** `d[key]` if present. */
  function Lookup(d: seq<Entry>, key: string): Option<Value> {
    if d == [] then None
    else if d[0].key == key then Some(d[0].value)
    else Lookup(d[1..], key)
  }

  /** A key is found exactly when the document has it, and what is found is
      the value of one of its entries with that key. */
  lemma {:induction false} LookupFinds(d: seq<Entry>, key: string)
    ensures Lookup(d, key).Some? <==> key in Keys(d)
    ensures Lookup(d, key).Some? ==> exists i :: 0 <= i < |d| && d[i] == Entry(key, Lookup(d, key).value)
    decreases |d|
  {
    if d != [] && d[0].key != key {
      LookupFinds(d[1..], key);
      if Lookup(d, key).Some? {
        var i :| 0 <= i < |d[1..]| && d[1..][i] == Entry(key, Lookup(d, key).value);
        assert d[i + 1] == d[1..][i];
      }
      assert Keys(d) == [d[0].key] + Keys(d[1..]);
    }
  }

  /** `d.get(key, default)`. */
  function Get(d: seq<Entry>, key: string, default: Value := Null): Value {
    Lookup(d, key).GetOr(default)
  }

  /** The elements `for item in v` visits: a list's items, a string's
      characters, a dict's keys; anything else is not iterable. */
  function Iterate(v: Value): (r: Result<seq<Value>, Exception>)
    ensures r.Failure? <==> !(v.List? || v.Str? || v.Dict?)
  {
    match v
    case List(items) => Success(items)
    case Str(s) => Success(seq(|s|, i requires 0 <= i < |s| => Str([s[i]])))
    case Dict(entries) => Success(seq(|entries|, i requires 0 <= i < |entries| => Str(entries[i].key)))
    case _ => Failure(TypeError)
  }

  /** `str(v)` inside an f-string. `render` stands for Python's text of a
      float or a container, which this model does not reproduce. */
  function PyStr(v: Value, render: Value -> string): string {
    match v
    case Null => "None"
    case Bool(b) => if b then "True" else "False"
    case Int(i) => IntToString(i)
    case NaN => "nan"
    case Str(s) => s
    case _ => render(v)
  }
}
