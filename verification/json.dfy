/**
 A parsed JSON tree as org.json hands it to the playlist client, the
 accessors the client calls on it (`get`, `getString`, `getJSONArray`,
 `getJSONObject`, a cast to `JSONObject`), and `toString` of the value
 `get` returns. Every exception one of these accessors would throw is an
 explicit `Err` here.
 */
module Json {

  datatype Option<+T> = None | Some(value: T)

  /** Why an access on a JSON tree fails; each corresponds to an exception
      org.json or a Java cast throws. */
  datatype Error =
    | BodyNotObject            // `new JSONObject(text)` on text that is not an object
    | KeyNotFound(key: string) // `get` or a typed getter on an absent key
    | NotAString(key: string)  // `getString` on a value that is not a string
    | NotAnArray(key: string)  // `getJSONArray` on a value that is not an array
    | NotAnObject(key: string) // `getJSONObject` on a value that is not an object
    | NotANumber(key: string)  // a numeric read of a value that is not a number
    | CastFailed               // `(JSONObject) value` on a value that is not an object

  datatype Result<+T> = Ok(value: T) | Err(error: Error) {
    predicate IsFailure() {
      Err?
    }

    function PropagateFailure<U>(): Result<U>
      requires Err?
    {
      Err(error)
    }

    function Extract(): T
      requires Ok?
    {
      value
    }
  }

  /** A JSON value. Objects are association lists in document order; numbers
      are integers. JSON `null` is a value of its own (`JSONObject.NULL`),
      distinct from an absent key. */
  datatype Json =
    | Null
    | Bool(b: bool)
    | Num(n: int)
    | Str(s: string)
    | Arr(elems: seq<Json>)
    | Obj(fields: seq<(string, Json)>)

  /** The value bound to `key`: the first binding when the list has several. */
  function Lookup(fields: seq<(string, Json)>, key: string): Option<Json>
  {
    if |fields| == 0 then None
    else if fields[0].0 == key then Some(fields[0].1)
    else Lookup(fields[1..], key)
  }

  /** The member `key` of `j` when `j` is an object that has one. */
  function Member(j: Json, key: string): (r: Option<Json>)
    ensures r.Some? ==> j.Obj? && Lookup(j.fields, key) == r
  {
    if j.Obj? then Lookup(j.fields, key) else None
  }

  /** `JSONObject.get(key)`: any present value, including `null`. */
  function GetValue(fields: seq<(string, Json)>, key: string): (r: Result<Json>)
    ensures r.Ok? <==> Lookup(fields, key).Some?
    ensures r.Ok? ==> Lookup(fields, key) == Some(r.value)
    ensures r.Err? ==> r.error == KeyNotFound(key)
  {
    match Lookup(fields, key)
    case None => Err(KeyNotFound(key))
    case Some(v) => Ok(v)
  }

  /** `JSONObject.getString(key)`: only a JSON string is accepted. */
  function GetString(fields: seq<(string, Json)>, key: string): (r: Result<string>)
    ensures r.Ok? <==> Lookup(fields, key).Some? && Lookup(fields, key).value.Str?
    ensures r.Ok? ==> Lookup(fields, key) == Some(Str(r.value))
    ensures Lookup(fields, key).None? ==> r == Err(KeyNotFound(key))
    ensures Lookup(fields, key).Some? && !Lookup(fields, key).value.Str? ==> r == Err(NotAString(key))
  {
    match Lookup(fields, key)
    case None => Err(KeyNotFound(key))
    case Some(Str(s)) => Ok(s)
    case Some(_) => Err(NotAString(key))
  }

  /** A numeric member: only a JSON number is accepted. */
  function GetNumber(fields: seq<(string, Json)>, key: string): (r: Result<int>)
    ensures r.Ok? <==> Lookup(fields, key).Some? && Lookup(fields, key).value.Num?
    ensures r.Ok? ==> Lookup(fields, key) == Some(Num(r.value))
  {
    match Lookup(fields, key)
    case None => Err(KeyNotFound(key))
    case Some(Num(n)) => Ok(n)
    case Some(_) => Err(NotANumber(key))
  }

  /** `JSONObject.getJSONArray(key)`: only a JSON array is accepted. */
  function GetArray(fields: seq<(string, Json)>, key: string): (r: Result<seq<Json>>)
    ensures r.Ok? <==> Lookup(fields, key).Some? && Lookup(fields, key).value.Arr?
    ensures r.Ok? ==> Lookup(fields, key) == Some(Arr(r.value))
    ensures Lookup(fields, key).None? ==> r == Err(KeyNotFound(key))
    ensures Lookup(fields, key).Some? && !Lookup(fields, key).value.Arr? ==> r == Err(NotAnArray(key))
  {
    match Lookup(fields, key)
    case None => Err(KeyNotFound(key))
    case Some(Arr(elems)) => Ok(elems)
    case Some(_) => Err(NotAnArray(key))
  }

  /** `JSONObject.getJSONObject(key)`: only a JSON object is accepted. */
  function GetObject(fields: seq<(string, Json)>, key: string): (r: Result<seq<(string, Json)>>)
    ensures r.Ok? <==> Lookup(fields, key).Some? && Lookup(fields, key).value.Obj?
    ensures r.Ok? ==> Lookup(fields, key) == Some(Obj(r.value))
    ensures Lookup(fields, key).None? ==> r == Err(KeyNotFound(key))
    ensures Lookup(fields, key).Some? && !Lookup(fields, key).value.Obj? ==> r == Err(NotAnObject(key))
  {
    match Lookup(fields, key)
    case None => Err(KeyNotFound(key))
    case Some(Obj(f)) => Ok(f)
    case Some(_) => Err(NotAnObject(key))
  }

  /** `new JSONObject(body)`: the response body must be a JSON object. */
  function ParseObject(body: Json): (r: Result<seq<(string, Json)>>)
    ensures r.Ok? <==> body.Obj?
    ensures r.Ok? ==> body == Obj(r.value)
    ensures r.Err? ==> r.error == BodyNotObject
  {
    match body
    case Obj(fields) => Ok(fields)
    case _ => Err(BodyNotObject)
  }

  /** `(JSONObject) element`: a cast of an array element to an object. */
  function CastObject(element: Json): (r: Result<seq<(string, Json)>>)
    ensures r.Ok? <==> element.Obj?
    ensures r.Ok? ==> element == Obj(r.value)
    ensures r.Err? ==> r.error == CastFailed
  {
    match element
    case Obj(fields) => Ok(fields)
    case _ => Err(CastFailed)
  }

  /** `new JSONObject(body).getJSONArray(key)`: the array under a top-level key. */
  function TopLevelArray(body: Json, key: string): (r: Result<seq<Json>>)
    ensures r.Ok? <==> body.Obj? && Lookup(body.fields, key).Some? && Lookup(body.fields, key).value.Arr?
    ensures r.Ok? ==> Lookup(body.fields, key) == Some(Arr(r.value))
    ensures !body.Obj? ==> r == Err(BodyNotObject)
    ensures body.Obj? && Lookup(body.fields, key).None? ==> r == Err(KeyNotFound(key))
  {
    var fields :- ParseObject(body);
    GetArray(fields, key)
  }

  /* ---------- `toString` of a value returned by `JSONObject.get` ---------- */

  function DigitChar(d: nat): (c: char)
    requires d < 10
    ensures '0' <= c <= '9'
  {
    "0123456789"[d]
  }

  function DigitValue(c: char): nat
  {
    if '0' <= c <= '9' then (c as int - '0' as int) else 0
  }

  /** A canonical decimal numeral: at least one digit, only digits, and no
      leading zero unless the numeral is "0" itself. */
  predicate IsDecimal(s: string)
  {
    && 1 <= |s|
    && (forall i :: 0 <= i < |s| ==> '0' <= s[i] <= '9')
    && (1 < |s| ==> s[0] != '0')
  }

  /** Decimal digits of `n`, most significant first, without leading zeros. */
  function NatToString(n: nat): (s: string)
    ensures IsDecimal(s)
  {
    if n < 10 then [DigitChar(n)] else NatToString(n / 10) + [DigitChar(n % 10)]
  }

  /** `Integer.toString`: a leading minus sign for negative numbers. */
  function IntToString(n: int): (s: string)
    ensures 1 <= |s|
    ensures s[0] == '-' <==> n < 0
    ensures n < 0 ==> IsDecimal(s[1..]) && s[1..] != "0"
    ensures 0 <= n ==> IsDecimal(s)
  {
    if n < 0 then "-" + NatToString(-n) else NatToString(n)
  }

  /** The number a string of decimal digits denotes. */
  function DigitsValue(s: string): nat
  {
    if |s| == 0 then 0 else DigitsValue(s[..|s| - 1]) * 10 + DigitValue(s[|s| - 1])
  }

  /** Reads back an optionally signed decimal numeral. */
  function ParseInt(s: string): int
  {
    if 0 < |s| && s[0] == '-' then 0 - DigitsValue(s[1..]) as int else DigitsValue(s)
  }

  lemma {:induction false} NatToStringValue(n: nat)
    ensures DigitsValue(NatToString(n)) == n
    decreases n
  {
    var s := NatToString(n);
    if n < 10 {
      assert s[..|s| - 1] == [];
    } else {
      NatToStringValue(n / 10);
      assert s[..|s| - 1] == NatToString(n / 10);
    }
  }

  lemma ParseNegative(digits: string)
    ensures ParseInt("-" + digits) == 0 - DigitsValue(digits) as int
  {
    var s := "-" + digits;
    assert s[0] == '-' && s[1..] == digits;
  }

  /** Rendering a number and reading it back gives the number again: the
      rendering loses nothing. */
  lemma {:induction false} IntToStringRoundTrip(n: int)
    ensures ParseInt(IntToString(n)) == n
  {
    if n < 0 {
      var digits := NatToString(-n);
      assert IntToString(n) == "-" + digits;
      NatToStringValue(-n);
      ParseNegative(digits);
    } else {
      var digits := NatToString(n);
      assert IntToString(n) == digits;
      assert digits[0] != '-';
      NatToStringValue(n);
    }
  }

  /** Backslash-escapes the quote and the backslash. */
  function Escape(s: string): string
  {
    if |s| == 0 then ""
    else (if s[0] == '"' || s[0] == '\\' then ['\\', s[0]] else [s[0]]) + Escape(s[1..])
  }

  function Quote(s: string): string
  {
    "\"" + Escape(s) + "\""
  }

  /** Compact JSON text of a value, members in association-list order. */
  function Serialize(j: Json): string
    decreases j, 2
  {
    match j
    case Null => "null"
    case Bool(b) => if b then "true" else "false"
    case Num(n) => IntToString(n)
    case Str(s) => Quote(s)
    case Arr(elems) => "[" + SerializeElems(j, elems) + "]"
    case Obj(fields) => "{" + SerializeFields(j, fields) + "}"
  }

  function SerializeElems(ghost parent: Json, elems: seq<Json>): string
    requires forall i :: 0 <= i < |elems| ==> elems[i] < parent
    decreases parent, 1, |elems|
  {
    if |elems| == 0 then ""
    else Serialize(elems[0]) + (if |elems| == 1 then "" else "," + SerializeElems(parent, elems[1..]))
  }

  function SerializeFields(ghost parent: Json, fields: seq<(string, Json)>): string
    requires forall i :: 0 <= i < |fields| ==> fields[i].1 < parent
    decreases parent, 1, |fields|
  {
    if |fields| == 0 then ""
    else
      Quote(fields[0].0) + ":" + Serialize(fields[0].1)
      + (if |fields| == 1 then "" else "," + SerializeFields(parent, fields[1..]))
  }

  /** `get(key).toString()`: a string is taken verbatim (no quotes), `null`
      becomes "null", a boolean or a number its usual text, and an array or
      an object its JSON text. */
  function Stringify(j: Json): (s: string)
    ensures j.Str? ==> s == j.s
    ensures j.Null? ==> s == "null"
    ensures j.Bool? ==> s == (if j.b then "true" else "false")
    ensures j.Num? ==> s == IntToString(j.n) && ParseInt(s) == j.n
  {
    match j
    case Str(s) => s
    case Num(n) => IntToStringRoundTrip(n); IntToString(n)
    case _ => Serialize(j)
  }
}
