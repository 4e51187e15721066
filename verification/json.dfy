/**
 * JSON values as JavaScript code sees them: `JSON.stringify`, property
 * reads on a parsed value, truthiness, and `String(v)`. `JSON.parse` is not
 * defined here; the modules that use it take it as a `Parser` argument.
 * Numbers are integers (floating point is not modelled).
 */
module Json {
  import opened Common
  import opened Strings

  datatype Json =
    | JNull
    | JBool(b: bool)
    | JNumber(n: int)
    | JString(s: string)
    | JArray(items: seq<Json>)
    | JObject(fields: seq<(string, Json)>)

  /** The outcome of `JSON.parse(text)`: a value, or the message of the `SyntaxError` it throws. */
  datatype Parsed = Parsed(value: Json) | Unparseable(message: string)

  type Parser = string -> Parsed

  /** The value of the last field named `key` (`JSON.parse` keeps the last duplicate). */
  function Lookup(fields: seq<(string, Json)>, key: string): (r: Option<Json>)
    ensures r.Some? <==> exists k :: 0 <= k < |fields| && fields[k].0 == key
    ensures r.Some? ==> exists k :: 0 <= k < |fields| && fields[k] == (key, r.value)
  {
    if |fields| == 0 then None
    else if fields[|fields| - 1].0 == key then Some(fields[|fields| - 1].1)
    else
      var r := Lookup(fields[..|fields| - 1], key);
      assert forall k :: 0 <= k < |fields| - 1 ==> fields[..|fields| - 1][k] == fields[k];
      r
  }

  /**
   * `v[key]` for a value that is not `null` (reading a property of `null`
   * throws, which callers model themselves); `None` is `undefined`. Only
   * objects have the fields a JSON text can name.
   */
  function Field(v: Json, key: string): Option<Json> {
    match v
    case JObject(fields) => Lookup(fields, key)
    case _ => None
  }

  /** JavaScript truthiness of a value that may be `undefined`. */
  predicate Truthy(v: Option<Json>) {
    match v
    case None => false
    case Some(JNull) => false
    case Some(JBool(b)) => b
    case Some(JNumber(n)) => n != 0
    case Some(JString(s)) => s != ""
    case Some(JArray(_)) => true
    case Some(JObject(_)) => true
  }

  function DigitChar(d: nat): char
    requires d < 10
  {
    "0123456789"[d]
  }

  /** Decimal numerals of a natural number, without leading zeros. */
  function NatToString(n: nat): (r: string)
    ensures |r| >= 1
    ensures forall k :: 0 <= k < |r| ==> '0' <= r[k] <= '9'
  {
    if n < 10 then [DigitChar(n)] else NatToString(n / 10) + [DigitChar(n % 10)]
  }

  function IntToString(n: int): string {
    if n < 0 then "-" + NatToString(-n) else NatToString(n)
  }

  const HexDigits: string := "0123456789abcdef"

  /** How `JSON.stringify` writes one character inside a string literal. */
  function EscapeChar(c: char): string {
    if c == '"' then "\\\""
    else if c == '\\' then "\\\\"
    else if c == '\U{0008}' then "\\b"
    else if c == '\U{000C}' then "\\f"
    else if c == '\n' then "\\n"
    else if c == '\r' then "\\r"
    else if c == '\t' then "\\t"
    else if c < ' ' then "\\u00" + [HexDigits[c as int / 16], HexDigits[c as int % 16]]
    else [c]
  }

  function Escape(s: string): string {
    if |s| == 0 then "" else EscapeChar(s[0]) + Escape(s[1..])
  }

  /** `JSON.stringify(s)` for a string. */
  function Quote(s: string): string {
    "\"" + Escape(s) + "\""
  }

  /** `JSON.stringify(v)`. */
  function Serialize(v: Json): string
    decreases v, 1
  {
    match v
    case JNull => "null"
    case JBool(b) => if b then "true" else "false"
    case JNumber(n) => IntToString(n)
    case JString(s) => Quote(s)
    case JArray(items) => "[" + SerializeItems(v, items) + "]"
    case JObject(fields) => "{" + SerializeFields(v, fields) + "}"
  }

  function SerializeItems(ghost parent: Json, items: seq<Json>): string
    requires forall k :: 0 <= k < |items| ==> items[k] < parent
    decreases parent, 0, |items|
  {
    if |items| == 0 then ""
    else if |items| == 1 then Serialize(items[0])
    else Serialize(items[0]) + "," + SerializeItems(parent, items[1..])
  }

  function SerializeFields(ghost parent: Json, fields: seq<(string, Json)>): string
    requires forall k :: 0 <= k < |fields| ==> fields[k].1 < parent
    decreases parent, 0, |fields|
  {
    if |fields| == 0 then ""
    else
      var entry := Quote(fields[0].0) + ":" + Serialize(fields[0].1);
      if |fields| == 1 then entry else entry + "," + SerializeFields(parent, fields[1..])
  }

  lemma {:induction false} EscapeNoLineFeed(s: string)
    ensures NoLineFeed(Escape(s))
  {
    if |s| > 0 {
      EscapeNoLineFeed(s[1..]);
      NoLineFeedAppend(EscapeChar(s[0]), Escape(s[1..]));
    }
  }

  lemma QuoteNoLineFeed(s: string)
    ensures NoLineFeed(Quote(s))
  {
    EscapeNoLineFeed(s);
    NoLineFeedAppend("\"", Escape(s));
    NoLineFeedAppend("\"" + Escape(s), "\"");
  }

  /**
   * `JSON.stringify` escapes every line feed, so serialized JSON is one
   * line: the property that lets a text be framed by blank lines.
   */
  lemma {:induction false} SerializeNoLineFeed(v: Json)
    ensures NoLineFeed(Serialize(v))
    decreases v, 1
  {
    match v
    case JNull =>
    case JBool(b) =>
    case JNumber(n) =>
    case JString(s) =>
      QuoteNoLineFeed(s);
    case JArray(items) =>
      ItemsNoLineFeed(v, items);
      NoLineFeedAppend("[", SerializeItems(v, items));
      NoLineFeedAppend("[" + SerializeItems(v, items), "]");
    case JObject(fields) =>
      FieldsNoLineFeed(v, fields);
      NoLineFeedAppend("{", SerializeFields(v, fields));
      NoLineFeedAppend("{" + SerializeFields(v, fields), "}");
  }

  lemma {:induction false} ItemsNoLineFeed(parent: Json, items: seq<Json>)
    requires forall k :: 0 <= k < |items| ==> items[k] < parent
    ensures NoLineFeed(SerializeItems(parent, items))
    decreases parent, 0, |items|
  {
    if |items| > 0 {
      SerializeNoLineFeed(items[0]);
      if |items| > 1 {
        ItemsNoLineFeed(parent, items[1..]);
        NoLineFeedAppend(Serialize(items[0]), ",");
        NoLineFeedAppend(Serialize(items[0]) + ",", SerializeItems(parent, items[1..]));
      }
    }
  }

  lemma {:induction false} FieldsNoLineFeed(parent: Json, fields: seq<(string, Json)>)
    requires forall k :: 0 <= k < |fields| ==> fields[k].1 < parent
    ensures NoLineFeed(SerializeFields(parent, fields))
    decreases parent, 0, |fields|
  {
    if |fields| > 0 {
      var key := Quote(fields[0].0);
      QuoteNoLineFeed(fields[0].0);
      SerializeNoLineFeed(fields[0].1);
      NoLineFeedAppend(key, ":");
      NoLineFeedAppend(key + ":", Serialize(fields[0].1));
      var entry := key + ":" + Serialize(fields[0].1);
      if |fields| > 1 {
        FieldsNoLineFeed(parent, fields[1..]);
        NoLineFeedAppend(entry, ",");
        NoLineFeedAppend(entry + ",", SerializeFields(parent, fields[1..]));
      }
    }
  }

  /** `String(v)` for an element of an array: `null` becomes the empty string. */
  function ElementString(v: Json): string
    decreases v, 2
  {
    if v.JNull? then "" else ToJsString(v)
  }

  /** `String(v)`: the text JavaScript concatenation uses for `v`. */
  function ToJsString(v: Json): string
    decreases v, 1
  {
    match v
    case JNull => "null"
    case JBool(b) => if b then "true" else "false"
    case JNumber(n) => IntToString(n)
    case JString(s) => s
    case JArray(items) => ElementsString(v, items)
    case JObject(_) => "[object Object]"
  }

  function ElementsString(ghost parent: Json, items: seq<Json>): string
    requires forall k :: 0 <= k < |items| ==> items[k] < parent
    decreases parent, 0, |items|
  {
    if |items| == 0 then ""
    else if |items| == 1 then ElementString(items[0])
    else ElementString(items[0]) + "," + ElementsString(parent, items[1..])
  }
}
