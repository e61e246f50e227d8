/**
 * The decoded JSON values the worker's response handlers walk, the
 * JMESPath field/index paths they search with, and the outcome of pulling
 * one typed field out of a response (a value, an error, or the panic of a
 * failed Go type assertion).
 */
module Json {
  import opened Wrappers

  /** A value decoded by encoding/json into interface{}; numbers hold whole values. */
  datatype Json =
    | Null
    | Bool(b: bool)
    | Num(n: int)
    | Str(s: string)
    | Arr(items: seq<Json>)
    | Obj(fields: map<string, Json>)

  /** One JMESPath step: a field of an object or an index into an array. */
  datatype Step = Key(name: string) | At(index: nat)

  type Path = seq<Step>

  /** One step of a search: a missing field, an index past the end or a wrong shape is null. */
  function Child(data: Json, step: Step): (r: Json)
    ensures !data.Obj? && !data.Arr? ==> r == Null
  {
    match step
    case Key(k) => if data.Obj? && k in data.fields then data.fields[k] else Null
    case At(i) => if data.Arr? && i < |data.items| then data.items[i] else Null
  }

  /** jmespath.Search for a path of field and index steps: never an error, null when absent. */
  function Search(data: Json, path: Path): (r: Json)
    decreases |path|
  {
    if path == [] then data else Search(Child(data, path[0]), path[1..])
  }

  /** Nothing can be found below null. */
  lemma {:induction false} SearchNull(path: Path)
    ensures Search(Null, path) == Null
    decreases |path|
  {
    if path != [] {
      SearchNull(path[1..]);
    }
  }

  /** Searching a concatenated path is searching the first part, then the rest from there. */
  lemma {:induction false} SearchAppend(data: Json, p: Path, q: Path)
    ensures Search(data, p + q) == Search(Search(data, p), q)
    decreases |p|
  {
    if p == [] {
      assert p + q == q;
    } else {
      assert (p + q)[0] == p[0];
      assert (p + q)[1..] == p[1..] + q;
      SearchAppend(Child(data, p[0]), p[1..], q);
    }
  }

  /** The smallest document holding `leaf` at `path` (earlier array slots are null). */
  function Nest(path: Path, leaf: Json): Json
    decreases |path|
  {
    if path == [] then leaf
    else match path[0]
      case Key(k) => Obj(map[k := Nest(path[1..], leaf)])
      case At(i) => Arr(seq(i, _ => Null) + [Nest(path[1..], leaf)])
  }

  /** Search finds what Nest placed. */
  lemma {:induction false} SearchNest(path: Path, leaf: Json)
    ensures Search(Nest(path, leaf), path) == leaf
    decreases |path|
  {
    if path != [] {
      SearchNest(path[1..], leaf);
      match path[0]
      case Key(k) =>
      case At(i) =>
        var items := seq(i, _ => Null) + [Nest(path[1..], leaf)];
        assert items[i] == Nest(path[1..], leaf);
    }
  }

  /** The string a value holds, or "" when it is not a string. */
  function AsStr(v: Json): string { if v.Str? then v.s else "" }

  /** The number a value holds, or 0 when it is not a number. */
  function AsNum(v: Json): int { if v.Num? then v.n else 0 }

  /** The flag a value holds, or false when it is not a boolean. */
  function AsBool(v: Json): bool { v.Bool? && v.b }

  // ---------------------------------------------------------------------------
  // Extraction outcomes
  // ---------------------------------------------------------------------------

  /**
   * The outcome of a handler step: a value, a returned error (wrapped in
   * ErrNoRetry when `noRetry`), or a Go panic with its message.
   */
  datatype Extracted<+T> = Ok(value: T) | Fail(msg: string, noRetry: bool) | Panic(msg: string) {
    predicate IsFailure() { !Ok? }

    function PropagateFailure<U>(): Extracted<U>
      requires !Ok?
    {
      if Fail? then Fail(msg, noRetry) else Panic(msg)
    }

    function Extract(): T
      requires Ok?
    {
      value
    }
  }

  /** Go's name for the dynamic type encoding/json gives a value. */
  function TypeName(v: Json): string
  {
    match v
    case Null => "nil"
    case Bool(_) => "bool"
    case Num(_) => "float64"
    case Str(_) => "string"
    case Arr(_) => "[]interface {}"
    case Obj(_) => "map[string]interface {}"
  }

  /** The panic of the type assertion `iface.(want)` on a value of another type. */
  function AssertionPanic(v: Json, want: string): string
  {
    "interface conversion: interface {} is " + TypeName(v) + ", not " + want
  }

  /** The usual nil-field error text. */
  function NilMsg(name: string): string
  {
    "error extracting " + name + "; " + name + " is nil"
  }

  /** json.Unmarshal of a body: the decoded value, or the decoder's error after `prefix`. */
  function Decode(body: Result<Json, string>, prefix: string, noRetry: bool): (r: Extracted<Json>)
    ensures r.Ok? <==> body.Success?
    ensures r.Ok? ==> r.value == body.value
    ensures body.Failure? ==> r == Fail(prefix + body.error, noRetry)
  {
    match body
    case Success(d) => Ok(d)
    case Failure(e) => Fail(prefix + e, noRetry)
  }

  /** A search, then `if iface == nil` error, then `iface.(string)`. */
  function StrAt(data: Json, path: Path, nilMsg: string, noRetry: bool): (r: Extracted<string>)
    ensures r.Ok? <==> Search(data, path).Str?
    ensures r.Ok? ==> r.value == Search(data, path).s
    ensures r.Fail? <==> Search(data, path).Null?
    ensures r.Fail? ==> r.msg == nilMsg && r.noRetry == noRetry
  {
    var v := Search(data, path);
    if v.Null? then Fail(nilMsg, noRetry)
    else if v.Str? then Ok(v.s)
    else Panic(AssertionPanic(v, "string"))
  }

  /** A search, the nil check, then `iface.(float64)` (whole numbers only). */
  function NumAt(data: Json, path: Path, nilMsg: string, noRetry: bool): (r: Extracted<int>)
    ensures r.Ok? <==> Search(data, path).Num?
    ensures r.Ok? ==> r.value == Search(data, path).n
    ensures r.Fail? <==> Search(data, path).Null?
    ensures r.Fail? ==> r.msg == nilMsg && r.noRetry == noRetry
  {
    var v := Search(data, path);
    if v.Null? then Fail(nilMsg, noRetry)
    else if v.Num? then Ok(v.n)
    else Panic(AssertionPanic(v, "float64"))
  }

  /** A search, the nil check, then `iface.(bool)`. */
  function BoolAt(data: Json, path: Path, nilMsg: string, noRetry: bool): (r: Extracted<bool>)
    ensures r.Ok? <==> Search(data, path).Bool?
    ensures r.Ok? ==> r.value == Search(data, path).b
    ensures r.Fail? <==> Search(data, path).Null?
    ensures r.Fail? ==> r.msg == nilMsg && r.noRetry == noRetry
  {
    var v := Search(data, path);
    if v.Null? then Fail(nilMsg, noRetry)
    else if v.Bool? then Ok(v.b)
    else Panic(AssertionPanic(v, "bool"))
  }

  /** An optional string field: nil gives "", a string itself, anything else a panic. */
  function OptStrAt(data: Json, path: Path): (r: Extracted<string>)
    ensures !r.Fail?
    ensures r.Ok? <==> Search(data, path).Null? || Search(data, path).Str?
    ensures r.Ok? ==> r.value == (if Search(data, path).Str? then Search(data, path).s else "")
  {
    var v := Search(data, path);
    if v.Null? then Ok("")
    else if v.Str? then Ok(v.s)
    else Panic(AssertionPanic(v, "string"))
  }
}
