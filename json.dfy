/**
 * JSON values as the agent and the front end see them after decoding, and
 * the dynamic operations both languages apply to them: truthiness, member
 * lookup, `in`, and conversion to text.
 */
module Json {
  import opened Wrappers
  import opened Strings

  /**
   * A decoded JSON value; numbers are integers. An object is its fields in
   * the order of the text, which is the order of a Python dict's items. A
   * decoded dict holds each key once (`DistinctKeys`); the front end only
   * reads members by name, so the order JavaScript gives them does not
   * matter there.
   */
  datatype Value =
    | Null
    | Bool(b: bool)
    | Num(n: int)
    | Str(text: string)
    | Arr(items: seq<Value>)
    | Obj(fields: seq<(string, Value)>)

  /** The value bound to `key`; when a key repeats, the last binding wins, as in a decoded dict. */
  function Lookup(fields: seq<(string, Value)>, key: string): (r: Option<Value>)
    ensures r.Some? <==> exists i :: 0 <= i < |fields| && fields[i].0 == key
    ensures r.Some? ==> exists i :: 0 <= i < |fields| && fields[i] == (key, r.value)
  {
    if |fields| == 0 then None
    else if fields[|fields| - 1].0 == key then Some(fields[|fields| - 1].1)
    else
      var r := Lookup(fields[..|fields| - 1], key);
      assert forall i :: 0 <= i < |fields| - 1 ==> fields[..|fields| - 1][i] == fields[i];
      r
  }

  /** No key occurs twice: the items of a Python dict, in insertion order. */
  predicate DistinctKeys<T>(pairs: seq<(string, T)>) {
    forall i, j :: 0 <= i < j < |pairs| ==> pairs[i].0 != pairs[j].0
  }

  /** Without repeated keys, each field is what its key looks up. */
  lemma {:induction false} LookupDistinct(fields: seq<(string, Value)>, i: nat)
    requires DistinctKeys(fields) && i < |fields|
    ensures Lookup(fields, fields[i].0) == Some(fields[i].1)
    decreases |fields|
  {
    var n := |fields| - 1;
    if i < n {
      var front := fields[..n];
      assert fields[n].0 != fields[i].0;
      assert DistinctKeys(front);
      LookupDistinct(front, i);
      assert front[i] == fields[i];
    }
  }

  /** A binding added at the end is the one found for its key. */
  lemma LookupSnoc(fields: seq<(string, Value)>, p: (string, Value), j: string)
    ensures Lookup(fields + [p], j) == if j == p.0 then Some(p.1) else Lookup(fields, j)
  {
    assert (fields + [p])[..|fields|] == fields;
  }

  /** Lookup in a dict display of two to five entries. */
  lemma LookupDisplay(a: (string, Value), b: (string, Value), c: (string, Value), d: (string, Value), e: (string, Value), j: string)
    ensures Lookup([a], j) == if j == a.0 then Some(a.1) else None
    ensures Lookup([a, b], j) == if j == b.0 then Some(b.1) else Lookup([a], j)
    ensures Lookup([a, b, c], j) == if j == c.0 then Some(c.1) else Lookup([a, b], j)
    ensures Lookup([a, b, c, d], j) == if j == d.0 then Some(d.1) else Lookup([a, b, c], j)
    ensures Lookup([a, b, c, d, e], j) == if j == e.0 then Some(e.1) else Lookup([a, b, c, d], j)
  {
    LookupSnoc([], a, j);
    LookupSnoc([a], b, j);
    LookupSnoc([a, b], c, j);
    LookupSnoc([a, b, c], d, j);
    LookupSnoc([a, b, c, d], e, j);
    assert [] + [a] == [a];
    assert [a] + [b] == [a, b];
    assert [a, b] + [c] == [a, b, c];
    assert [a, b, c] + [d] == [a, b, c, d];
    assert [a, b, c, d] + [e] == [a, b, c, d, e];
  }

  /** The object has a binding for `key`. */
  predicate HasKey(v: Value, key: string) {
    v.Obj? && Lookup(v.fields, key).Some?
  }

  /** Python's `d.get(key, default)` on a dict. */
  function GetOr(v: Value, key: string, default: Value): Value
    requires v.Obj?
  {
    Lookup(v.fields, key).GetOr(default)
  }

  /** The bindings with `key` given the new value; every other binding is kept. */
  function Replace(fields: seq<(string, Value)>, key: string, value: Value): (r: seq<(string, Value)>)
    ensures |r| == |fields|
  {
    seq(|fields|, i requires 0 <= i < |fields| => if fields[i].0 == key then (key, value) else fields[i])
  }

  lemma {:induction false} LookupReplace(fields: seq<(string, Value)>, key: string, value: Value, j: string)
    ensures Lookup(Replace(fields, key, value), j) ==
      if j == key && Lookup(fields, key).Some? then Some(value) else Lookup(fields, j)
    decreases |fields|
  {
    if |fields| > 0 {
      var n := |fields|;
      assert Replace(fields, key, value)[..n - 1] == Replace(fields[..n - 1], key, value);
      LookupReplace(fields[..n - 1], key, value, j);
    }
  }

  /**
   * Python's `d[key] = value`: an existing key keeps its place and takes the
   * new value, a new key is added at the end.
   */
  function Put(fields: seq<(string, Value)>, key: string, value: Value): (r: seq<(string, Value)>)
    ensures forall j :: Lookup(r, j) == if j == key then Some(value) else Lookup(fields, j)
  {
    if Lookup(fields, key).Some? then
      assert forall j :: Lookup(Replace(fields, key, value), j) == if j == key then Some(value) else Lookup(fields, j) by {
        forall j ensures Lookup(Replace(fields, key, value), j) == if j == key then Some(value) else Lookup(fields, j) {
          LookupReplace(fields, key, value, j);
        }
      }
      Replace(fields, key, value)
    else
      assert (fields + [(key, value)])[..|fields|] == fields;
      fields + [(key, value)]
  }

  /** Python's `d.update(changes)`: the changes are stored one after another. */
  function Update(fields: seq<(string, Value)>, changes: seq<(string, Value)>): (r: seq<(string, Value)>)
    ensures forall j :: Lookup(r, j) == if Lookup(changes, j).Some? then Lookup(changes, j) else Lookup(fields, j)
  {
    if |changes| == 0 then fields
    else
      var n := |changes|;
      var r := Put(Update(fields, changes[..n - 1]), changes[n - 1].0, changes[n - 1].1);
      r
  }

  /** Python's `a or b`: the first operand when it is true, the second otherwise. */
  function PyOr(a: Value, b: Value): (r: Value)
    ensures PyTruthy(a) ==> r == a
    ensures !PyTruthy(a) ==> r == b
  {
    if PyTruthy(a) then a else b
  }

  /** Python's truth test: `None`, `False`, `0`, empty text and empty containers are false. */
  predicate PyTruthy(v: Value) {
    match v
    case Null => false
    case Bool(b) => b
    case Num(n) => n != 0
    case Str(s) => s != ""
    case Arr(items) => items != []
    case Obj(fields) => fields != []
  }

  /** JavaScript's truth test: unlike Python, every array and object is true. */
  predicate JsTruthy(v: Value) {
    match v
    case Null => false
    case Bool(b) => b
    case Num(n) => n != 0
    case Str(s) => s != ""
    case Arr(_) => true
    case Obj(_) => true
  }

  /** Python's `type(v).__name__`. */
  function PyTypeName(v: Value): string {
    match v
    case Null => "NoneType"
    case Bool(_) => "bool"
    case Num(_) => "int"
    case Str(_) => "str"
    case Arr(_) => "list"
    case Obj(_) => "dict"
  }

  /** The message of the `AttributeError` Python raises for `v.attr` when `v` lacks it. */
  function NoAttributeMessage(v: Value, attr: string): string {
    "'" + PyTypeName(v) + "' object has no attribute '" + attr + "'"
  }

  /** Python values that can be dict keys: lists and dicts cannot. */
  predicate PyHashable(v: Value) {
    !v.Arr? && !v.Obj?
  }

  /**
   * Python's `key in container` for a text key: key membership for a dict,
   * element equality for a list, substring for a text. `None` stands for the
   * `TypeError` raised when the container is not iterable.
   */
  function PyIn(key: string, container: Value): (r: Option<bool>)
    ensures r.None? <==> container.Null? || container.Bool? || container.Num?
    ensures container.Obj? ==> r == Some(HasKey(container, key))
  {
    match container
    case Obj(fields) => Some(Lookup(fields, key).Some?)
    case Arr(items) => Some(Str(key) in items)
    case Str(s) => Some(Contains(s, key))
    case _ => None
  }

  /** Python's `d[key]` for a text key: `None` stands for the `KeyError` or `TypeError` it raises. */
  function Subscript(v: Value, key: string): (r: Option<Value>)
    ensures r.Some? <==> HasKey(v, key)
  {
    if v.Obj? then Lookup(v.fields, key) else None
  }

  /**
   * Python's `repr` of a decoded value. Text is put in single quotes; the
   * escaping of quotes and control characters is not modelled.
   */
  function PyRepr(v: Value): string {
    match v
    case Null => "None"
    case Bool(b) => if b then "True" else "False"
    case Num(n) => IntToString(n)
    case Str(s) => "'" + s + "'"
    case Arr(items) => "[" + Join(seq(|items|, i requires 0 <= i < |items| => PyRepr(items[i])), ", ") + "]"
    case Obj(fields) =>
      "{" + Join(seq(|fields|, i requires 0 <= i < |fields| => "'" + fields[i].0 + "': " + PyRepr(fields[i].1)), ", ") + "}"
  }

  /** Python's `str(v)`, as an f-string writes a value: text as it is, anything else as `repr`. */
  function PyStr(v: Value): (r: string)
    ensures v.Str? ==> r == v.text
  {
    if v.Str? then v.text else PyRepr(v)
  }

  /**
   * JavaScript's `String(v)`, as `+` on text applies it: arrays join their
   * elements with `,` (null elements give nothing), objects give
   * `[object Object]`.
   */
  function JsString(v: Value): string {
    match v
    case Null => "null"
    case Bool(b) => if b then "true" else "false"
    case Num(n) => IntToString(n)
    case Str(s) => s
    case Arr(items) => Join(seq(|items|, i requires 0 <= i < |items| => if items[i].Null? then "" else JsString(items[i])), ",")
    case Obj(_) => "[object Object]"
  }

  /** JavaScript's `v.prop` for a value `JSON.parse` produced: `None` is `undefined`. */
  function JsProperty(v: Value, prop: string): Option<Value>
    requires !v.Null?
  {
    if v.Obj? then Lookup(v.fields, prop) else None
  }
}
