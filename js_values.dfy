/**
 * The part of JavaScript's value model that the export viewer relies on:
 * a parsed JSON tree, truthiness, the `||` operator, optional-chaining
 * property access and `Object.keys`.
 */
module JsValues {

  datatype Option<T> = None | Some(value: T)

  /** A JavaScript exception, here always a TypeError raised by a property
      access on null/undefined or a call of a method the value lacks. */
  datatype JsError = TypeError(reason: string)

  datatype Result<T> = Ok(value: T) | Err(error: JsError)

  /** A parsed JSON value, plus `undefined` for a missing property.
      Objects keep their keys in insertion order. */
  datatype Json =
    | Undefined
    | Null
    | Bool(b: bool)
    | Num(n: real)
    | Str(s: string)
    | Arr(items: seq<Json>)
    | Obj(fields: seq<(string, Json)>)

  /** JavaScript truthiness (NaN is not representable here). */
  predicate Truthy(j: Json) {
    match j
    case Undefined => false
    case Null => false
    case Bool(b) => b
    case Num(n) => n != 0.0
    case Str(s) => s != ""
    case Arr(_) => true
    case Obj(_) => true
  }

  predicate Nullish(j: Json) {
    j.Undefined? || j.Null?
  }

  /** `a || b`: the left operand when it is truthy, otherwise the right one. */
  function Or(a: Json, b: Json): (r: Json)
    ensures Truthy(a) ==> r == a
    ensures !Truthy(a) ==> r == b
    ensures Truthy(a) || Truthy(b) ==> Truthy(r)
  {
    if Truthy(a) then a else b
  }

  /** The value stored under `key` in a field list, if any (first match). */
  function Field(fields: seq<(string, Json)>, key: string): Json
  {
    if |fields| == 0 then Undefined
    else if fields[0].0 == key then fields[0].1
    else Field(fields[1..], key)
  }

  /** A field read is the value of the first entry with that key, and
      undefined when there is none. */
  lemma {:induction false} FieldSpec(fields: seq<(string, Json)>, key: string)
    ensures Field(fields, key) != Undefined ==> exists i :: 0 <= i < |fields| && fields[i] == (key, Field(fields, key))
    ensures (forall i :: 0 <= i < |fields| ==> fields[i].0 != key) ==> Field(fields, key) == Undefined
    decreases |fields|
  {
    if |fields| > 0 && fields[0].0 != key {
      FieldSpec(fields[1..], key);
      if Field(fields, key) != Undefined {
        var i :| 0 <= i < |fields[1..]| && fields[1..][i] == (key, Field(fields, key));
        assert fields[i + 1] == fields[1..][i];
      }
    }
  }

  /** The entry at `i` is the first one with that key, so a read gives its
      value. */
  lemma {:induction false} FieldAt(fields: seq<(string, Json)>, i: nat, key: string)
    requires i < |fields| && fields[i].0 == key
    requires forall j :: 0 <= j < i ==> fields[j].0 != key
    ensures Field(fields, key) == fields[i].1
    decreases i
  {
    if i > 0 {
      assert forall j :: 0 <= j < i - 1 ==> fields[1..][j] == fields[j + 1];
      FieldAt(fields[1..], i - 1, key);
    }
  }

  /** `j?.[key]`: property access with optional chaining. A non-object has
      none of the properties the viewer reads, so it yields undefined. */
  function Get(j: Json, key: string): Json {
    if j.Obj? then Field(j.fields, key) else Undefined
  }

  /** `j?.[k0]?.[k1]...` */
  function Path(j: Json, keys: seq<string>): Json
    decreases |keys|
  {
    if |keys| == 0 then j else Path(Get(j, keys[0]), keys[1..])
  }

  /** Optional chaining stops at the first missing property. */
  lemma {:induction false} PathOfUndefined(keys: seq<string>)
    ensures Path(Undefined, keys) == Undefined
    decreases |keys|
  {
    if |keys| > 0 {
      PathOfUndefined(keys[1..]);
    }
  }

  function DigitChar(d: nat): char
    requires d < 10
  {
    "0123456789"[d]
  }

  /** The decimal spelling of a natural number, as used for array keys. */
  function NatToString(n: nat): string
    decreases n
  {
    if n < 10 then [DigitChar(n)] else NatToString(n / 10) + [DigitChar(n % 10)]
  }

  /** `Object.keys(j)` paired with the values `j[key]`. Arrays and strings
      are keyed by index (a string's values are its one-character strings);
      numbers and booleans have no own keys. */
  function Entries(j: Json): (r: seq<(string, Json)>)
    ensures j.Obj? ==> r == j.fields
    ensures j.Arr? ==> |r| == |j.items|
    ensures j.Str? ==> |r| == |j.s|
    ensures !(j.Obj? || j.Arr? || j.Str?) ==> r == []
  {
    match j
    case Obj(fields) => fields
    case Arr(items) => seq(|items|, i requires 0 <= i < |items| => (NatToString(i), items[i]))
    case Str(s) => seq(|s|, i requires 0 <= i < |s| => (NatToString(i), Str([s[i]])))
    case _ => []
  }

  /** Arrays and strings list their elements under their indices. */
  lemma EntriesOfSequences(j: Json)
    ensures j.Arr? ==> forall i :: 0 <= i < |j.items| ==> Entries(j)[i] == (NatToString(i), j.items[i])
    ensures j.Str? ==> forall i :: 0 <= i < |j.s| ==> Entries(j)[i] == (NatToString(i), Str([j.s[i]]))
  {
  }
}
