/**
 * JSON values as serde_json's `Value` holds them, and their compact serialization as
 * `serde_json::to_string` writes it. Numbers are kept as their literal text (the core never
 * computes with them), and an object's fields are kept in iteration order.
 */
module Json {
  import opened Wrappers
  import opened Text

  datatype Json =
    | JNull
    | JBool(b: bool)
    | JNumber(literal: string)
    | JString(s: string)
    | JArray(items: seq<Json>)
    | JObject(fields: seq<Member>)

  /** One `"key": value` pair of an object. */
  datatype Member = Member(key: string, value: Json)

  /** `Value::get(key)`: the field of an object; nothing for any other kind of value. */
  function Get(v: Json, key: string): (r: Option<Json>)
    ensures r.Some? ==> v.JObject? && exists i :: 0 <= i < |v.fields| && v.fields[i] == Member(key, r.value)
    ensures r.None? ==> !v.JObject? || forall i :: 0 <= i < |v.fields| ==> v.fields[i].key != key
  {
    if v.JObject? then Lookup(v.fields, key) else None
  }

  function Lookup(fields: seq<Member>, key: string): (r: Option<Json>)
    ensures r.Some? ==> exists i :: 0 <= i < |fields| && fields[i] == Member(key, r.value)
    ensures r.None? ==> forall i :: 0 <= i < |fields| ==> fields[i].key != key
  {
    if fields == [] then None
    else if fields[0].key == key then Some(fields[0].value)
    else Lookup(fields[1..], key)
  }

  /** Lookup finds the first member with the key. */
  lemma {:induction false} LookupFirst(fields: seq<Member>, key: string, i: nat)
    requires i < |fields| && fields[i].key == key
    requires forall j :: 0 <= j < i ==> fields[j].key != key
    ensures Lookup(fields, key) == Some(fields[i].value)
  {
    if i > 0 {
      LookupFirst(fields[1..], key, i - 1);
    }
  }

  /** `Value::as_str`. */
  function AsStr(v: Json): Option<string> {
    if v.JString? then Some(v.s) else None
  }

  /** `args.get(key).and_then(|v| v.as_str())`: a string field of an object. */
  function GetStr(v: Json, key: string): Option<string> {
    match Get(v, key)
    case Some(JString(s)) => Some(s)
    case _ => None
  }

  const HexDigitsLower := "0123456789abcdef"

  /** One character of a string literal, escaped as serde_json escapes it: quote, backslash
      and the seven short escapes, `\u00XX` (lower-case hex) for the other control
      characters, and everything else verbatim. */
  function EscapeChar(c: char): (r: string)
    ensures |r| >= 1
  {
    if c == '"' then "\\\""
    else if c == '\\' then "\\\\"
    else if c == '\U{8}' then "\\b"
    else if c == '\U{C}' then "\\f"
    else if c == '\n' then "\\n"
    else if c == '\r' then "\\r"
    else if c == '\t' then "\\t"
    else if c < ' ' then "\\u00" + [HexDigitsLower[c as int / 16], HexDigitsLower[c as int % 16]]
    else [c]
  }

  function Escape(s: string): (r: string)
    ensures |r| >= |s|
  {
    if s == [] then "" else EscapeChar(s[0]) + Escape(s[1..])
  }

  function Quote(s: string): (r: string)
    ensures |r| >= 2 + |s|
  {
    "\"" + Escape(s) + "\""
  }

  /** Characters that a string literal holds unescaped. */
  predicate IsPlain(c: char) {
    c >= ' ' && c != '"' && c != '\\'
  }

  /** Text without quotes, backslashes or control characters is written as it is. */
  lemma {:induction false} EscapePlain(s: string)
    requires forall i :: 0 <= i < |s| ==> IsPlain(s[i])
    ensures Escape(s) == s
  {
    if s != [] {
      EscapePlain(s[1..]);
    }
  }

  /** `serde_json::to_string`: compact text, no whitespace. */
  function ToText(v: Json): string
    decreases v, 1
  {
    match v
    case JNull => "null"
    case JBool(b) => if b then "true" else "false"
    case JNumber(lit) => lit
    case JString(s) => Quote(s)
    case JArray(items) => "[" + ItemsText(items) + "]"
    case JObject(fields) => "{" + FieldsText(fields) + "}"
  }

  function ItemsText(items: seq<Json>): (r: string)
    ensures items != [] ==> |r| >= |ToText(items[0])|
    decreases items, 0
  {
    if items == [] then ""
    else if |items| == 1 then ToText(items[0])
    else ToText(items[0]) + "," + ItemsText(items[1..])
  }

  function FieldsText(fields: seq<Member>): (r: string)
    decreases fields, 0
  {
    if fields == [] then ""
    else
      var member := Quote(fields[0].key) + ":" + ToText(fields[0].value);
      if |fields| == 1 then member else member + "," + FieldsText(fields[1..])
  }
}
