/** JavaScript values as the dashboard's handlers see them: optional values,
    store/HTTP results, parsed JSON bodies, truthiness, `String(v)` and
    `JSON.stringify(v)`. */
module Js {

  datatype Option<+T> = None | Some(value: T)

  /** A store or transport answer: a value, or the message of the error it raised. */
  datatype Result<+T> = Ok(value: T) | Err(message: string)

  /** A value produced by `JSON.parse`. Numbers are integers here; object
      fields keep their textual order. */
  datatype Json =
    | JNull
    | JBool(b: bool)
    | JNum(n: int)
    | JStr(s: string)
    | JArr(items: seq<Json>)
    | JObj(fields: seq<(string, Json)>)

  /** A webhook body read with `response.text()` and then `JSON.parse`d inside
      a try: either the parsed value or, when parsing threw, the raw text. */
  datatype Body = Parsed(v: Json) | Raw(text: string)

  /** What a `fetch` call yields: a rejected promise (network failure) or an
      answered request with its `ok` flag, status code and body. */
  datatype Reply<+B> = Unreachable(message: string) | Answered(ok: bool, status: int, body: B)

  /** The answer to a store query ending in `.single()`: the row, the
      "no rows" error (code `PGRST116`), or any other error. */
  datatype Single<+T> = Found(row: T) | NoRows | QueryFailed(message: string)

  /** How a UI handler ended: it returned at once without a word, a guard
      refused with a toast, the work failed with a toast, or it succeeded. */
  datatype Outcome = Ignored | Refused(reason: string) | Failed(message: string) | Succeeded

  /** JavaScript truthiness of a JSON value. */
  predicate Truthy(v: Json)
  {
    match v
    case JNull => false
    case JBool(b) => b
    case JNum(n) => n != 0
    case JStr(s) => s != ""
    case JArr(_) => true
    case JObj(_) => true
  }

  /** Truthiness of a property read, where `None` is `undefined`. */
  predicate Present(p: Option<Json>)
  {
    p.Some? && Truthy(p.value)
  }

  /** `a || b` over property reads: the first operand when it is truthy. */
  function Or(a: Option<Json>, b: Option<Json>): (r: Option<Json>)
    ensures Present(a) ==> r == a
    ensures !Present(a) ==> r == b
  {
    if Present(a) then a else b
  }

  /** Own field `key` of a non-null value (`undefined` when absent). */
  function Field(v: Json, key: string): (r: Option<Json>)
    ensures r.Some? ==> v.JObj? && exists i :: 0 <= i < |v.fields| && v.fields[i] == (key, r.value)
    ensures v.JObj? && (exists i :: 0 <= i < |v.fields| && v.fields[i].0 == key) ==> r.Some?
  {
    match v
    case JObj(fields) => FieldIn(fields, key)
    case _ => None
  }

  function FieldIn(fields: seq<(string, Json)>, key: string): (r: Option<Json>)
    ensures r.Some? ==> exists i :: 0 <= i < |fields| && fields[i] == (key, r.value)
    ensures r.None? <==> forall i :: 0 <= i < |fields| ==> fields[i].0 != key
  {
    if fields == [] then None
    else if fields[0].0 == key then Some(fields[0].1)
    else
      var r := FieldIn(fields[1..], key);
      assert forall i :: 1 <= i < |fields| ==> fields[i] == fields[1..][i - 1];
      r
  }

  /** The message V8 gives the TypeError raised by reading a property of `null`. */
  function NullReadMessage(key: string): string
  {
    "Cannot read properties of null (reading '" + key + "')"
  }

  /** `v.key`: reading a property of `null` throws. */
  function ReadProperty(v: Json, key: string): (r: Result<Option<Json>>)
    ensures r.Err? <==> v == JNull
    ensures r.Ok? ==> r.value == Field(v, key)
  {
    if v == JNull then Err(NullReadMessage(key)) else Ok(Field(v, key))
  }

  /** Decimal digits of a natural number. */
  function NatToString(n: nat): (r: string)
    ensures |r| > 0
    ensures forall i :: 0 <= i < |r| ==> '0' <= r[i] <= '9'
    decreases n
  {
    var d := [(48 + n % 10) as char];
    if n < 10 then d else NatToString(n / 10) + d
  }

  /** `String(n)` / `n.toString()` for an integer. */
  function IntToString(n: int): (r: string)
    ensures |r| > 0
    ensures r[0] == '-' <==> n < 0
  {
    if n < 0 then "-" + NatToString(-n) else NatToString(n)
  }

  /** The numeric value of a string of decimal digits. */
  function DigitsValue(s: string): nat
    requires forall i :: 0 <= i < |s| ==> '0' <= s[i] <= '9'
  {
    if s == [] then 0 else 10 * DigitsValue(s[..|s| - 1]) + (s[|s| - 1] as int - 48)
  }

  /** Reading the digits back gives the number: distinct numbers print differently. */
  lemma {:induction false} NatToStringValue(n: nat)
    ensures DigitsValue(NatToString(n)) == n
    decreases n
  {
    var d := [(48 + n % 10) as char];
    if n >= 10 {
      var p := NatToString(n / 10);
      NatToStringValue(n / 10);
      var s := p + d;
      assert s[..|s| - 1] == p;
    }
  }

  lemma NatToStringInjective(a: nat, b: nat)
    requires NatToString(a) == NatToString(b)
    ensures a == b
  {
    NatToStringValue(a);
    NatToStringValue(b);
  }

  /** `String(v)`, as `new Error(v)` uses it for the error's message. */
  function JsString(v: Json): (r: string)
    decreases v, 1
  {
    match v
    case JNull => "null"
    case JBool(b) => if b then "true" else "false"
    case JNum(n) => IntToString(n)
    case JStr(s) => s
    case JArr(items) => JoinItems(v, items)
    case JObj(_) => "[object Object]"
  }

  /** `Array.prototype.join(",")`, where `null` elements print as "". */
  function JoinItems(ghost parent: Json, items: seq<Json>): string
    requires forall i :: 0 <= i < |items| ==> items[i] < parent
    decreases parent, 0, |items|
  {
    if items == [] then ""
    else
      var head := if items[0] == JNull then "" else JsString(items[0]);
      if |items| == 1 then head else head + "," + JoinItems(parent, items[1..])
  }

  /** The `\u00XX` hex digit of a nibble (lower-case, as JSON.stringify writes it). */
  function HexDigit(d: nat): (c: char)
    requires d < 16
  {
    if d < 10 then (48 + d) as char else (87 + d) as char
  }

  /** The escaped form of one character inside a JSON string literal. */
  function EscapeChar(c: char): (r: string)
    ensures |r| > 0
  {
    if c == '"' then "\\\""
    else if c == '\\' then "\\\\"
    else if c == '\U{8}' then "\\b"
    else if c == '\U{C}' then "\\f"
    else if c == '\n' then "\\n"
    else if c == '\r' then "\\r"
    else if c == '\t' then "\\t"
    else if (c as int) < 0x20 then "\\u00" + [HexDigit(c as int / 16), HexDigit(c as int % 16)]
    else [c]
  }

  function Escape(s: string): string
  {
    if s == [] then [] else EscapeChar(s[0]) + Escape(s[1..])
  }

  /** `JSON.stringify(s)` for a string: quoted and escaped. */
  function Quote(s: string): (r: string)
    ensures |r| >= 2 && r[0] == '"' && r[|r| - 1] == '"'
  {
    "\"" + Escape(s) + "\""
  }

  /** `JSON.stringify(v)` for a parsed value. */
  function Stringify(v: Json): (r: string)
    ensures |r| > 0
    decreases v, 1
  {
    match v
    case JNull => "null"
    case JBool(b) => if b then "true" else "false"
    case JNum(n) => IntToString(n)
    case JStr(s) => Quote(s)
    case JArr(items) => "[" + StringifyItems(v, items) + "]"
    case JObj(fields) => "{" + StringifyFields(v, fields) + "}"
  }

  function StringifyItems(ghost parent: Json, items: seq<Json>): string
    requires forall i :: 0 <= i < |items| ==> items[i] < parent
    decreases parent, 0, |items|
  {
    if items == [] then ""
    else if |items| == 1 then Stringify(items[0])
    else Stringify(items[0]) + "," + StringifyItems(parent, items[1..])
  }

  function StringifyFields(ghost parent: Json, fields: seq<(string, Json)>): string
    requires forall i :: 0 <= i < |fields| ==> fields[i].1 < parent
    decreases parent, 0, |fields|
  {
    if fields == [] then ""
    else
      var f := Quote(fields[0].0) + ":" + Stringify(fields[0].1);
      if |fields| == 1 then f else f + "," + StringifyFields(parent, fields[1..])
  }

  /** The value of a lower-case hex digit as `HexDigit` writes it. */
  function HexValue(c: char): nat
  {
    if '0' <= c <= '9' then c as int - 48
    else if 'a' <= c <= 'f' then c as int - 87
    else 0
  }

  /** Reads back the escapes that `Escape` writes. */
  function Unescape(s: string): string
    decreases |s|
  {
    if s == [] then []
    else if s[0] != '\\' || |s| == 1 then [s[0]] + Unescape(s[1..])
    else if s[1] == 'u' && |s| >= 6 then
      [(HexValue(s[4]) * 16 + HexValue(s[5])) as char] + Unescape(s[6..])
    else
      var c := s[1];
      var d := if c == 'b' then '\U{8}' else if c == 'f' then '\U{C}' else if c == 'n' then '\n'
               else if c == 'r' then '\r' else if c == 't' then '\t' else c;
      [d] + Unescape(s[2..])
  }

  lemma UnescapeChar(c: char, rest: string)
    ensures Unescape(EscapeChar(c) + rest) == [c] + Unescape(rest)
  {
    var e := EscapeChar(c);
    if (c as int) < 0x20 && c != '\U{8}' && c != '\U{C}' && c != '\n' && c != '\r' && c != '\t' {
      var hi, lo := c as int / 16, c as int % 16;
      assert hi < 2;
      assert e == "\\u00" + [HexDigit(hi), HexDigit(lo)];
      assert (e + rest)[6..] == rest;
      assert HexValue(HexDigit(hi)) * 16 + HexValue(HexDigit(lo)) == c as int;
    } else if |e| == 2 {
      assert (e + rest)[2..] == rest;
    } else {
      assert e == [c];
      assert (e + rest)[1..] == rest;
    }
  }

  /** Escaping loses nothing: two different QR texts never serialise alike. */
  lemma {:induction false} UnescapeEscape(s: string)
    ensures Unescape(Escape(s)) == s
  {
    if s != [] {
      UnescapeChar(s[0], Escape(s[1..]));
      UnescapeEscape(s[1..]);
    }
  }

  /** The signed-in user the auth context provides. */
  datatype User = User(id: string, email: Option<string>)

  /** The message of `new Error(webhookResult.message || 'Error en el webhook')`,
      how both WhatsApp screens report a rejected webhook reply; reading
      `message` of `null` raises a TypeError instead. */
  function WebhookFailure(result: Json): (m: string)
    ensures result == JNull ==> m == NullReadMessage("message")
    ensures result != JNull && !Present(Field(result, "message")) ==> m == "Error en el webhook"
    ensures result != JNull && Present(Field(result, "message")) ==> m == JsString(Field(result, "message").value)
  {
    match ReadProperty(result, "message")
    case Err(e) => e
    case Ok(p) => if Present(p) then JsString(p.value) else "Error en el webhook"
  }

  /** `msg || fallback` for a message that is a string: the fallback replaces only "". */
  function MessageOr(msg: string, fallback: string): (r: string)
    ensures msg != "" ==> r == msg
    ensures msg == "" ==> r == fallback
  {
    if msg != "" then msg else fallback
  }
}
