/** The slice of JavaScript value semantics the front-end's data transforms rely on:
    JSON-like values, truthiness, property reads that throw on null/undefined,
    lodash's isEmpty/keys checks, and the exceptions a transform can raise. */
module Js {

  /** A JSON-like JavaScript value. Numbers are reals (NaN and rounding are not modelled);
      functions are not values here. Deep equality (lodash `isEqual`) is Dafny's `==`. */
  datatype Value =
    | Undefined
    | Null
    | Bool(b: bool)
    | Num(n: real)
    | Str(s: string)
    | Arr(items: seq<Value>)
    | Obj(fields: map<string, Value>)

  /** A plain object, keyed by property name. */
  type Object = map<string, Value>

  /** Why a transform stopped: a JavaScript TypeError (reading a property of null or undefined,
      calling `map`/`reduce` on a non-array), or an array element that is not an object where
      the code treats every element as a record. */
  datatype JsError = TypeError | NotARecord

  datatype Result<+T> = Ok(value: T) | Err(error: JsError) {
    predicate IsFailure() { Err? }

    function PropagateFailure<U>(): Result<U>
      requires Err?
    {
      Err(error)
    }

    function Extract(): T
      requires Ok?
    {
      value
    }
  }

  datatype Option<+T> = None | Some(value: T)

  /** How an event handler ended: normally, or with an exception escaping it. */
  datatype Outcome = Done | Threw(error: JsError)

  /** JavaScript truthiness (`!!v`). */
  predicate Truthy(v: Value) {
    match v
    case Undefined => false
    case Null => false
    case Bool(b) => b
    case Num(n) => n != 0.0
    case Str(s) => s != ""
    case Arr(_) => true
    case Obj(_) => true
  }

  /** `o[key]` on a plain object: `undefined` when the key is absent. */
  function Get(o: Object, key: string): (r: Value)
    ensures key !in o ==> r == Undefined
    ensures key in o ==> r == o[key]
  {
    if key in o then o[key] else Undefined
  }

  /** The property read `v.key` for a named (non-index) key: it throws on null and undefined,
      gives `length` for arrays and strings, and `undefined` for anything else missing. */
  function Member(v: Value, key: string): (r: Result<Value>)
    ensures r.Err? <==> v.Undefined? || v.Null?
    ensures v.Obj? ==> r == Ok(Get(v.fields, key))
    ensures r.Ok? && r.value != Undefined && key != "length" ==> v.Obj?
  {
    match v
    case Undefined => Err(TypeError)
    case Null => Err(TypeError)
    case Obj(f) => Ok(Get(f, key))
    case Arr(items) => Ok(if key == "length" then Num(|items| as real) else Undefined)
    case Str(s) => Ok(if key == "length" then Num(|s| as real) else Undefined)
    case Bool(_) => Ok(Undefined)
    case Num(_) => Ok(Undefined)
  }

  /** The element read `v[0]`: it throws on null and undefined. */
  function First(v: Value): (r: Result<Value>)
    ensures r.Err? <==> v.Undefined? || v.Null?
    ensures v.Arr? ==> r == Ok(if v.items == [] then Undefined else v.items[0])
  {
    match v
    case Undefined => Err(TypeError)
    case Null => Err(TypeError)
    case Arr(items) => Ok(if items == [] then Undefined else items[0])
    case Str(s) => Ok(if s == "" then Undefined else Str([s[0]]))
    case Obj(f) => Ok(Get(f, "0"))
    case Bool(_) => Ok(Undefined)
    case Num(_) => Ok(Undefined)
  }

  /** No element is `null` or `undefined`, so reading a property of each one does not throw. */
  predicate AllPresent(items: seq<Value>) {
    forall i :: 0 <= i < |items| ==> !items[i].Null? && !items[i].Undefined?
  }

  /** lodash `isEmpty`: primitives are empty, arrays and strings by length, objects by keys. */
  predicate IsEmpty(v: Value) {
    match v
    case Arr(items) => items == []
    case Str(s) => s == ""
    case Obj(f) => f == map[]
    case _ => true
  }

  /** lodash `includes(keys(v), key)` for a named (non-index) key: only objects have such keys. */
  predicate HasKey(v: Value, key: string) {
    v.Obj? && key in v.fields
  }

  /** JavaScript `a < b` where both sides are numbers; any other comparison is taken as false. */
  predicate NumLess(a: Value, b: Value) {
    a.Num? && b.Num? && a.n < b.n
  }

  /** `items.map(f)` with a callback that may throw: the first element whose callback throws
      decides the error; otherwise one result per element, in order. */
  function MapResult<T>(items: seq<Value>, f: Value -> Result<T>): (r: Result<seq<T>>)
    ensures r.Ok? <==> forall i :: 0 <= i < |items| ==> f(items[i]).Ok?
    ensures r.Ok? ==> |r.value| == |items|
    ensures r.Ok? ==> forall i :: 0 <= i < |items| ==> f(items[i]) == Ok(r.value[i])
    ensures r.Err? ==> exists i :: 0 <= i < |items| && f(items[i]) == Err(r.error)
                                   && forall j :: 0 <= j < i ==> f(items[j]).Ok?
  {
    if items == [] then Ok([])
    else
      var head :- f(items[0]);
      var rest := MapResult(items[1..], f);
      assert forall i :: 1 <= i < |items| ==> items[i] == items[1..][i - 1];
      if rest.Err? then
        ghost var i :| 0 <= i < |items[1..]| && f(items[1..][i]) == Err(rest.error)
                       && forall j :: 0 <= j < i ==> f(items[1..][j]).Ok?;
        assert f(items[i + 1]) == Err(rest.error);
        Err(rest.error)
      else Ok([head] + rest.value)
  }

  /** The records of an array value, as `map`/`reduce` over a list of objects sees them:
      a non-array throws a TypeError, a non-object element is NotARecord. */
  function Records(v: Value): (r: Result<seq<Object>>)
    ensures !v.Arr? ==> r == Err(TypeError)
    ensures v.Arr? && r.Ok? ==> |r.value| == |v.items|
    ensures v.Arr? && r.Ok? ==> forall i :: 0 <= i < |v.items| ==> v.items[i] == Obj(r.value[i])
    ensures v.Arr? ==> (r.Ok? <==> forall i :: 0 <= i < |v.items| ==> v.items[i].Obj?)
  {
    if v.Arr? then RecordsOf(v.items) else Err(TypeError)
  }

  function RecordsOf(items: seq<Value>): (r: Result<seq<Object>>)
    ensures r.Err? ==> r.error == NotARecord
    ensures r.Ok? ==> |r.value| == |items|
    ensures r.Ok? ==> forall i :: 0 <= i < |items| ==> items[i] == Obj(r.value[i])
    ensures r.Ok? <==> forall i :: 0 <= i < |items| ==> items[i].Obj?
  {
    if items == [] then Ok([])
    else if !items[0].Obj? then Err(NotARecord)
    else
      var rest :- RecordsOf(items[1..]);
      assert forall i :: 1 <= i < |items| ==> items[i] == items[1..][i - 1];
      Ok([items[0].fields] + rest)
  }

  /** The array value holding the given records, in order. */
  function FromRecords(rs: seq<Object>): (v: Value)
    ensures v.Arr? && |v.items| == |rs|
    ensures forall i :: 0 <= i < |rs| ==> v.items[i] == Obj(rs[i])
  {
    Arr(seq(|rs|, i requires 0 <= i < |rs| => Obj(rs[i])))
  }

  lemma RecordsFromRecords(rs: seq<Object>)
    ensures Records(FromRecords(rs)) == Ok(rs)
  {
    var r := Records(FromRecords(rs));
    assert r.Ok?;
    assert |r.value| == |rs|;
    forall i | 0 <= i < |rs| ensures r.value[i] == rs[i] {
      assert FromRecords(rs).items[i] == Obj(r.value[i]);
    }
    assert r.value == rs;
  }

  lemma FromRecordsOfRecords(v: Value)
    requires Records(v).Ok?
    ensures FromRecords(Records(v).value) == v
  {
    var rs := Records(v).value;
    assert FromRecords(rs).items == v.items;
  }
}
