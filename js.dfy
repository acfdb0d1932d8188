/**
 * The JavaScript values, errors and built-in conversions the wallet adapters rely on: truthiness
 * (`if (!x)`, `!!x`, `a && b`), `typeof`, property reads that throw on null and undefined,
 * `String(v)`, `v.toString(radix)`, `parseInt(v, radix)` and `String.prototype.toUpperCase`.
 * Every value the adapters receive from a caller, a provider or the host bridge is a `Value`.
 */
module Js {
  import opened Numbers

  datatype Option<T> = None | Some(value: T)

  /** An instance of the Solana library's `PublicKey`, identified by its base58 text (what its
      `toString()` and `toBase58()` return). */
  datatype PublicKey = PublicKey(base58: string)

  /** A JavaScript value. Numbers are integral (`Num`) or NaN; a plain object is the map of its own
      properties, an array the sequence of its elements. */
  datatype Value =
    | Undefined
    | Null
    | Bool(b: bool)
    | Num(n: int)
    | NaN
    | Str(s: string)
    | Key(key: PublicKey)
    | Obj(fields: map<string, Value>)
    | Arr(items: seq<Value>)

  /** What a `throw` or a rejected promise carries: an `Error` built with a message, a `TypeError`
      raised by the engine, or a provider's rejection object `{code, message}` rethrown as is. */
  datatype Error =
    | Error(message: string)
    | TypeError(message: string)
    | Rejection(code: Value, message: string)

  /** The outcome of an operation: its value, or what it threw. */
  datatype Result<T> = Ok(value: T) | Err(error: Error)

  /** A validator's outcome: it returned `true`, or it threw. */
  datatype Check = Pass | Fail(error: Error)

  /** The requests an operation issued to an external party, in order, and its outcome. */
  datatype Exchange<R, T> = Exchange(requests: seq<R>, result: Result<T>)

  /** `!!v` */
  predicate Truthy(v: Value) {
    match v
    case Undefined => false
    case Null => false
    case Bool(b) => b
    case Num(n) => n != 0
    case NaN => false
    case Str(s) => s != ""
    case Key(_) => true
    case Obj(_) => true
    case Arr(_) => true
  }

  /** `typeof v` */
  function TypeOf(v: Value): string {
    match v
    case Undefined => "undefined"
    case Null => "object"
    case Bool(_) => "boolean"
    case Num(_) => "number"
    case NaN => "number"
    case Str(_) => "string"
    case Key(_) => "object"
    case Obj(_) => "object"
    case Arr(_) => "object"
  }

  /** The `TypeError` the engine raises when code reads property `name` of null or undefined. */
  function ReadOfMissing(v: Value, name: string): Error
    requires v == Undefined || v == Null
  {
    TypeError("Cannot read properties of " + (if v == Null then "null" else "undefined")
              + " (reading '" + name + "')")
  }

  /** `v[name]`, for a property name other than an array index. */
  function Get(v: Value, name: string): (r: Result<Value>)
    ensures r.Err? <==> v == Undefined || v == Null
    ensures v.Obj? ==> r == Ok(if name in v.fields then v.fields[name] else Undefined)
  {
    match v
    case Undefined => Err(ReadOfMissing(v, name))
    case Null => Err(ReadOfMissing(v, name))
    case Obj(fields) => Ok(if name in fields then fields[name] else Undefined)
    case _ => Ok(Undefined)
  }

  /** `v[i]` */
  function At(v: Value, i: nat): (r: Result<Value>)
    ensures r.Err? <==> v == Undefined || v == Null
    ensures v.Arr? ==> r == Ok(if i < |v.items| then v.items[i] else Undefined)
  {
    match v
    case Undefined => Err(ReadOfMissing(v, DecimalString(i)))
    case Null => Err(ReadOfMissing(v, DecimalString(i)))
    case Arr(items) => Ok(if i < |items| then items[i] else Undefined)
    case Str(s) => Ok(if i < |s| then Str([s[i]]) else Undefined)
    case Obj(fields) => Ok(if DecimalString(i) in fields then fields[DecimalString(i)] else Undefined)
    case _ => Ok(Undefined)
  }

  /** `String(v)`; an array prints its elements joined by commas, with null and undefined as
      empty text. */
  function ToText(v: Value): string
    decreases v, 1
  {
    match v
    case Undefined => "undefined"
    case Null => "null"
    case Bool(b) => if b then "true" else "false"
    case Num(n) => DecimalString(n)
    case NaN => "NaN"
    case Str(s) => s
    case Key(k) => k.base58
    case Obj(_) => "[object Object]"
    case Arr(items) => Join(v, items)
  }

  function Join(ghost whole: Value, items: seq<Value>): string
    requires forall x :: x in items ==> x < whole
    decreases whole, 0, |items|
  {
    if items == [] then ""
    else
      assert items[0] in items;
      assert forall x :: x in items[1..] ==> x in items;
      var first := if items[0] == Undefined || items[0] == Null then "" else ToText(items[0]);
      if |items| == 1 then first else first + "," + Join(whole, items[1..])
  }

  /** The text `Number.prototype.toString(radix)` writes for a parsed number. */
  function NumberToRadix(p: Parsed, radix: nat): string
    requires 2 <= radix <= 36
  {
    match p
    case Int(n) => if radix == 10 then DecimalString(n) else IntToRadix(n, radix)
    case NotANumber => "NaN"
  }

  /** `v.toString(radix)`: numbers are written in the radix, every other value ignores it, and
      null and undefined have no `toString` to call. */
  function ToStringRadix(v: Value, radix: nat): (r: Result<string>)
    requires 2 <= radix <= 36
    ensures r.Err? <==> v == Undefined || v == Null
    ensures v.Num? ==> r == Ok(NumberToRadix(Int(v.n), radix))
  {
    match v
    case Undefined => Err(ReadOfMissing(v, "toString"))
    case Null => Err(ReadOfMissing(v, "toString"))
    case Num(n) => Ok(NumberToRadix(Int(n), radix))
    case NaN => Ok("NaN")
    case _ => Ok(ToText(v))
  }

  /** `parseInt(v, radix)`: the value is first converted with `String(v)`. */
  function ParseIntValue(v: Value, radix: int): (r: Value)
    ensures r.Num? || r.NaN?
  {
    match ParseInt(ToText(v), radix)
    case Int(n) => Num(n)
    case NotANumber => NaN
  }

  /** The upper-case form of one character: the ASCII letters, and the two non-ASCII letters whose
      upper case is an ASCII letter (dotless i and long s). */
  function UpperChar(c: char): char {
    if 'a' <= c <= 'z' then (c as int - 32) as char
    else if c == '\U{0131}' then 'I'
    else if c == '\U{017F}' then 'S'
    else c
  }

  /** `s.toUpperCase()`, one character at a time. */
  function ToUpperCase(s: string): string {
    seq(|s|, i requires 0 <= i < |s| => UpperChar(s[i]))
  }

  /** Upper-casing twice is upper-casing once. */
  lemma ToUpperCaseIdempotent(s: string)
    ensures ToUpperCase(ToUpperCase(s)) == ToUpperCase(s)
  {
    var u := ToUpperCase(s);
    forall i | 0 <= i < |s|
      ensures ToUpperCase(u)[i] == u[i]
    {
      assert UpperChar(UpperChar(s[i])) == UpperChar(s[i]);
    }
  }
}
