/** Values that the widget builders put into a push payload.

    A payload is what the client hands to the JSON encoder: nested
    mappings, lists, strings and numbers. It is modelled as a value, so a
    rendered payload is a snapshot of the builder's state. */
module Payload {

  datatype Option<+T> = None | Some(value: T)

  /** The outcome of a call that may raise: its value, or the message of the
      exception. */
  datatype Result<+T> = Success(value: T) | Failure(message: string)

  /** The outcome of a check that returns nothing or raises. */
  datatype Outcome = Pass | Fail(message: string)

  /** A JSON-serialisable value. Integers and floats are kept apart because
      the encoder writes `5` and `5.0` differently. */
  datatype Json =
    | JNull
    | JInt(i: int)
    | JFloat(r: real)
    | JStr(s: string)
    | JArr(elems: seq<Json>)
    | JObj(fields: map<string, Json>)

  /** A number as a caller passes it: an integer or a float. */
  datatype Num = Int(i: int) | Float(r: real)

  /** The number's value, as `float(n)` gives it (exactly, not rounded). */
  function ToReal(n: Num): real {
    match n
    case Int(i) => i as real
    case Float(r) => r
  }

  /** The number stored as it was passed. */
  function AsJson(n: Num): Json {
    match n
    case Int(i) => JInt(i)
    case Float(r) => JFloat(r)
  }

  /** The number after `float(...)`. */
  function AsFloat(n: Num): (j: Json)
    ensures j.JFloat? && j.r == ToReal(n)
    ensures n.Float? ==> j == AsJson(n)
  {
    JFloat(ToReal(n))
  }

  /** Python's `if n:` for an optional number: `None` and zero are false. */
  predicate Truthy(n: Option<Num>)
    ensures Truthy(n) <==> n.Some? && n.value != Int(0) && n.value != Float(0.0)
  {
    n.Some? && ToReal(n.value) != 0.0
  }

  /** A string that may be `None`. */
  function Nullable(s: Option<string>): Json {
    match s
    case None => JNull
    case Some(t) => JStr(t)
  }

  /** The payload `{'item': items}` that most widgets render. */
  function ItemPayload(items: seq<Json>): (data: map<string, Json>)
    ensures data.Keys == {"item"}
    ensures data["item"] == JArr(items)
  {
    map["item" := JArr(items)]
  }

  /** `f` applied to every element of `s`, in order. */
  function MapSeq<A, B>(f: A -> B, s: seq<A>): (r: seq<B>)
    ensures |r| == |s|
  {
    if s == [] then [] else MapSeq(f, s[..|s| - 1]) + [f(s[|s| - 1])]
  }

  lemma {:induction false} MapSeqAt<A, B>(f: A -> B, s: seq<A>, k: nat)
    requires k < |s|
    ensures MapSeq(f, s)[k] == f(s[k])
  {
    if k < |s| - 1 {
      MapSeqAt(f, s[..|s| - 1], k);
    }
  }

  /** Mapping one more element appends its image: the step of a loop that
      handles the elements one by one. */
  lemma MapSeqSnoc<A, B>(f: A -> B, s: seq<A>, x: A)
    ensures MapSeq(f, s + [x]) == MapSeq(f, s) + [f(x)]
  {
  }
}
