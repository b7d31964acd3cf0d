/**
 * The few pieces of PHP's runtime that the upload endpoint relies on:
 * loosely typed values and their conversion to boolean, exceptions,
 * the query parameter bag of a request, and `implode`.
 */
module Php {

  datatype Option<+T> = None | Some(value: T)

  /** A PHP value, as far as the endpoint inspects one.
      Floats are not modelled; a PHP array is kept as its list of values. */
  datatype Value =
    | Null
    | Bool(b: bool)
    | Int(i: int)
    | Str(s: string)
    | Arr(items: seq<Value>)
    | Obj(className: string)

  /** PHP's conversion to boolean: `false`, `null`, `0`, `""`, `"0"` and the
      empty array are falsy, every object and every other scalar is truthy. */
  predicate Truthy(v: Value) {
    match v
    case Null => false
    case Bool(b) => b
    case Int(i) => i != 0
    case Str(s) => s != "" && s != "0"
    case Arr(items) => items != []
    case Obj(_) => true
  }

  /** An exception as the controller classifies it: an HTTP exception already
      carries the status code it should produce, any other does not. */
  datatype Exception =
    | HttpException(statusCode: int, message: string)
    | PlainException(message: string)

  /** The part of an incoming request the endpoint reads itself: the query bag. */
  datatype Request = Request(query: map<string, Value>) {

    /** The query bag's `get($key, $default)`: the stored value when the key
        is present (whatever it is), the default otherwise. */
    function Get(key: string, default: Value): (v: Value)
      ensures key in query ==> v == query[key]
      ensures key !in query ==> v == default
    {
      if key in query then query[key] else default
    }
  }

  /** The sum of the lengths of `parts`. */
  function TotalLength(parts: seq<string>): nat {
    if parts == [] then 0 else |parts[0]| + TotalLength(parts[1..])
  }

  /** PHP's `implode(glue, parts)`: the parts in order, the glue between each
      two neighbours and nowhere else. */
  function Implode(glue: string, parts: seq<string>): (r: string)
    ensures parts == [] ==> r == ""
    ensures |parts| == 1 ==> r == parts[0]
    ensures parts != [] ==> |parts[0]| <= |r| && r[..|parts[0]|] == parts[0]
    ensures parts != [] ==> |r| == TotalLength(parts) + (|parts| - 1) * |glue|
  {
    if parts == [] then ""
    else if |parts| == 1 then parts[0]
    else parts[0] + glue + Implode(glue, parts[1..])
  }

  /** Imploding a concatenation is imploding each half with one glue between
      them; with the single-part case this fixes every part and every glue of
      the result. */
  lemma {:induction false} ImplodeAppend(glue: string, a: seq<string>, b: seq<string>)
    requires a != [] && b != []
    ensures Implode(glue, a + b) == Implode(glue, a) + glue + Implode(glue, b)
    decreases |a|
  {
    assert (a + b)[0] == a[0];
    if |a| == 1 {
      assert (a + b)[1..] == b;
    } else {
      assert (a + b)[1..] == a[1..] + b;
      ImplodeAppend(glue, a[1..], b);
    }
  }
}
