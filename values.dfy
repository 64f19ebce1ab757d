/** Values that reach the request parser and the formatters: Ruby's nil, booleans,
    integers, strings, arrays and (ordered) hashes, plus the Option/Result wrappers
    the rest of the model uses for Ruby's nil and for raised exceptions. */
module Values {

  datatype Option<+T> = None | Some(value: T)

  /** A computation that either returns a value or raises an error. */
  datatype Result<+T, +E> = Ok(value: T) | Err(error: E) {
    predicate IsFailure() { Err? }

    function PropagateFailure<U>(): Result<U, E>
      requires Err?
    {
      Err(error)
    }

    function Extract(): T
      requires Ok?
    {
      value
    }
  }

  /** A request parameter value. A hash keeps its insertion order, as Ruby's does;
      its keys are strings (parameters have indifferent access). */
  datatype Json =
    | JNull
    | JBool(b: bool)
    | JInt(i: int)
    | JStr(s: string)
    | JArr(items: seq<Json>)
    | JObj(entries: seq<(string, Json)>)

  function DigitChar(d: nat): char
    requires d < 10
  {
    "0123456789"[d]
  }

  function NatToString(n: nat): (r: string)
    ensures |r| > 0
    decreases n
  {
    if n < 10 then [DigitChar(n)] else NatToString(n / 10) + [DigitChar(n % 10)]
  }

  function IntToString(i: int): string {
    if i < 0 then "-" + NatToString(-i) else NatToString(i)
  }

  /** Ruby's `to_s`. Arrays and hashes render as a placeholder (their `inspect`
      form is not modelled). */
  function ToS(v: Json): string {
    match v
    case JNull => ""
    case JBool(b) => if b then "true" else "false"
    case JInt(i) => IntToString(i)
    case JStr(s) => s
    case JArr(_) => "[...]"
    case JObj(_) => "{...}"
  }

  /** `Array.wrap`: nil gives the empty array, an array stays, anything else is wrapped. */
  function Wrap(v: Json): (r: seq<Json>)
    ensures v == JNull ==> r == []
    ensures v.JArr? ==> r == v.items
    ensures !v.JArr? && v != JNull ==> r == [v]
  {
    match v
    case JNull => []
    case JArr(items) => items
    case _ => [v]
  }

  predicate IsSpace(c: char) {
    c == ' ' || c == '\t' || c == '\n' || c == '\r' || c == '\U{C}' || c == '\U{B}'
  }

  /** ActiveSupport's `blank?` on a string: empty or only white space. */
  predicate BlankString(s: string) {
    forall i :: 0 <= i < |s| ==> IsSpace(s[i])
  }

  /** ActiveSupport's `blank?` on a parameter value. */
  predicate Blank(v: Json) {
    match v
    case JNull => true
    case JBool(b) => !b
    case JInt(_) => false
    case JStr(s) => BlankString(s)
    case JArr(items) => |items| == 0
    case JObj(entries) => |entries| == 0
  }

  /** The first value stored under `key` in a hash's entries. */
  function Get(entries: seq<(string, Json)>, key: string): (r: Option<Json>)
    ensures r.Some? <==> exists i :: 0 <= i < |entries| && entries[i].0 == key
    ensures r.Some? ==> exists i :: 0 <= i < |entries| && entries[i] == (key, r.value)
  {
    if entries == [] then None
    else if entries[0].0 == key then Some(entries[0].1)
    else Get(entries[1..], key)
  }

  /** `hash[key]`: nil when the key is absent. */
  function Lookup(entries: seq<(string, Json)>, key: string): Json {
    match Get(entries, key)
    case Some(v) => v
    case None => JNull
  }

  function Keys(entries: seq<(string, Json)>): (r: seq<string>)
    ensures |r| == |entries|
    ensures forall i :: 0 <= i < |r| ==> r[i] == entries[i].0
  {
    seq(|entries|, i requires 0 <= i < |entries| => entries[i].0)
  }

  /** `hash.delete(key)` on an entry list. */
  function Delete(entries: seq<(string, Json)>, key: string): (r: seq<(string, Json)>)
    ensures forall i :: 0 <= i < |r| ==> r[i].0 != key
    ensures forall e :: e in r <==> e in entries && e.0 != key
  {
    if entries == [] then []
    else if entries[0].0 == key then Delete(entries[1..], key)
    else [entries[0]] + Delete(entries[1..], key)
  }
}
