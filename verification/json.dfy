/**
 * JSON values as they reach a route handler after `request.json()`, and as
 * the client builds them before `JSON.stringify`. A key that is missing from
 * an object is `undefined`; JSON cannot carry `undefined` as a value.
 */
module Json {
  import opened Wrappers

  datatype Value =
    | Null
    | Bool(b: bool)
    | Num(n: real)
    | Str(s: string)
    | Arr(elems: seq<Value>)
    | Obj(fields: map<string, Value>)

  /** A request body: either text that is not JSON, or a parsed value. */
  datatype Body = Malformed | Parsed(value: Value)

  /** The value stored under `key`, or None when the key is absent (`undefined`). */
  function Lookup(fields: map<string, Value>, key: string): (r: Option<Value>)
    ensures r.Some? <==> key in fields
    ensures r.Some? ==> r.value == fields[key]
  {
    if key in fields then Some(fields[key]) else None
  }

  /** The type name zod reports for a value in "Expected X, received Y". */
  function TypeName(v: Value): string
  {
    match v
    case Null => "null"
    case Bool(_) => "boolean"
    case Num(_) => "number"
    case Str(_) => "string"
    case Arr(_) => "array"
    case Obj(_) => "object"
  }

  /** `Number.isInteger` on an exact number. */
  predicate IsInteger(x: real)
  {
    x == x.Floor as real
  }

  /** A character outside the Basic Multilingual Plane: JavaScript stores it as a surrogate pair. */
  predicate IsAstral(c: char)
  {
    c as int >= 0x1_0000
  }

  /**
   * A string's JavaScript `length`: the number of UTF-16 code units, one per
   * character of the Basic Multilingual Plane and two per astral character.
   */
  function Utf16Length(s: string): (n: nat)
    ensures |s| <= n <= 2 * |s|
    ensures n == 0 <==> s == []
  {
    if s == [] then 0 else (if IsAstral(s[0]) then 2 else 1) + Utf16Length(s[1..])
  }

  /** Without astral characters the JavaScript length is the character count. */
  lemma {:induction false} Utf16LengthOfBmp(s: string)
    requires forall i :: 0 <= i < |s| ==> !IsAstral(s[i])
    ensures Utf16Length(s) == |s|
  {
    if s != [] {
      assert forall i :: 0 <= i < |s[1..]| ==> s[1..][i] == s[i + 1];
      Utf16LengthOfBmp(s[1..]);
    }
  }

  /** With only astral characters the JavaScript length is twice the character count. */
  lemma {:induction false} Utf16LengthOfAstral(s: string)
    requires forall i :: 0 <= i < |s| ==> IsAstral(s[i])
    ensures Utf16Length(s) == 2 * |s|
  {
    if s != [] {
      assert forall i :: 0 <= i < |s[1..]| ==> s[1..][i] == s[i + 1];
      Utf16LengthOfAstral(s[1..]);
    }
  }
}
