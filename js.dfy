/**
  JavaScript values as the JSON body parser hands them to a request handler,
  together with the two pieces of JavaScript semantics the user registry relies
  on: truthiness (the `!name` test) and reading a property off the parsed body
  (`req.body.name`).
 */
module Js {

  datatype Option<T> = None | Some(value: T)

  /** A JavaScript value. Numbers are kept as reals: a JSON number can be
      fractional, and `-0` and `0` are the same number here. */
  datatype JsValue =
    | Undefined
    | Null
    | Bool(b: bool)
    | Num(n: real)
    | Str(s: string)
    | Arr(elems: seq<JsValue>)
    | Obj(fields: seq<(string, JsValue)>)

  /** JavaScript's falsy values: `undefined`, `null`, `false`, `0` and `""`.
      Every array and every object is truthy, even an empty one. */
  predicate Falsy(v: JsValue)
  {
    match v
    case Undefined => true
    case Null => true
    case Bool(b) => !b
    case Num(n) => n == 0.0
    case Str(s) => |s| == 0
    case Arr(_) => false
    case Obj(_) => false
  }

  /** Exactly five values are falsy; anything else, of any type, is truthy. */
  lemma FalsyValues(v: JsValue)
    ensures Falsy(v) <==>
      v == Undefined || v == Null || v == Bool(false) || v == Num(0.0) || v == Str("")
  {
  }

  /** What the body parser is allowed to produce for `req.body`: an object, or
      (the parser accepts any JSON array or object at top level) an array. */
  predicate ParsedBody(v: JsValue)
  {
    v.Obj? || v.Arr?
  }

  /** The value bound to `key` in an object's own properties. When the JSON
      text repeated a key, the parser kept the last occurrence. */
  function Lookup(fields: seq<(string, JsValue)>, key: string): (r: Option<JsValue>)
    ensures r.None? <==> forall i :: 0 <= i < |fields| ==> fields[i].0 != key
    ensures r.Some? ==>
      exists i :: 0 <= i < |fields| && fields[i] == (key, r.value) &&
        forall j :: i < j < |fields| ==> fields[j].0 != key
  {
    if |fields| == 0 then None
    else if fields[|fields| - 1].0 == key then Some(fields[|fields| - 1].1)
    else Lookup(fields[..|fields| - 1], key)
  }

  /** `obj[key]` for a value that is neither `null` nor `undefined` (reading a
      property of those throws). A missing property reads as `undefined`;
      arrays, strings, numbers and booleans have no property that a JSON key
      can name here, so every read of them is `undefined`. */
  function Property(obj: JsValue, key: string): (r: JsValue)
    requires obj != Undefined && obj != Null
    ensures !obj.Obj? ==> r == Undefined
    ensures obj.Obj? && (forall i :: 0 <= i < |obj.fields| ==> obj.fields[i].0 != key) ==>
      r == Undefined
    ensures obj.Obj? && (exists i :: 0 <= i < |obj.fields| && obj.fields[i].0 == key) ==>
      exists i :: 0 <= i < |obj.fields| && obj.fields[i] == (key, r) &&
        forall j :: i < j < |obj.fields| ==> obj.fields[j].0 != key
  {
    match obj
    case Obj(fields) =>
      (match Lookup(fields, key)
       case Some(v) => v
       case None => Undefined)
    case _ => Undefined
  }
}
