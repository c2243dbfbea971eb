/**
 * JSON values as `JSON.parse` produces them, with JavaScript's truthiness and
 * the optional-chaining lookups (`o?.k`, `o?.[i]`) the code applies to them.
 * `None` stands for `undefined`. Numbers are kept as exact reals.
 */
module Json {
  import opened Wrappers

  datatype Json =
    | JNull
    | JBool(b: bool)
    | JNum(n: real)
    | JStr(s: string)
    | JArr(items: seq<Json>)
    | JObj(fields: map<string, Json>)

  /** JavaScript truthiness of a JSON value (`NaN` cannot arise from `JSON.parse`). */
  predicate Truthy(j: Json) {
    match j
    case JNull => false
    case JBool(b) => b
    case JNum(n) => n != 0.0
    case JStr(s) => s != ""
    case JArr(_) => true
    case JObj(_) => true
  }

  /** Truthiness of a possibly `undefined` value. */
  predicate TruthyOpt(o: Option<Json>) {
    o.Some? && Truthy(o.value)
  }

  /** `o?.k`: the member `k` of an object, `undefined` otherwise. */
  function Field(o: Option<Json>, k: string): Option<Json>
  {
    if o.Some? && o.value.JObj? && k in o.value.fields then Some(o.value.fields[k]) else None
  }

  /**
   * `o?.[0]`: the first element of an array, the member `"0"` of an object,
   * the first character of a string; `undefined` otherwise.
   */
  function AtZero(o: Option<Json>): (r: Option<Json>)
    ensures o.Some? && o.value.JArr? ==> r == if o.value.items == [] then None else Some(o.value.items[0])
    ensures o.Some? && o.value.JObj? ==> r == if "0" in o.value.fields then Some(o.value.fields["0"]) else None
  {
    if o.None? then None
    else match o.value
      case JArr(items) => if items == [] then None else Some(items[0])
      case JObj(fields) => if "0" in fields then Some(fields["0"]) else None
      case JStr(s) => if s == "" then None else Some(JStr([s[0]]))
      case _ => None
  }

  /** The string held by a value, if it is a string. */
  function AsString(o: Option<Json>): Option<string>
  {
    if o.Some? && o.value.JStr? then Some(o.value.s) else None
  }

  /**
   * `String(v)` as `+=` onto a string applies it: a string as it is, a
   * boolean as `true` or `false`, a number as `num` writes it, an array as
   * its elements' texts joined by `,` (a `null` element as `''`), an object
   * as `[object Object]`. `None` when it throws: an object with its own
   * `toString` member has no callable `toString`, since JSON holds no
   * functions, and its `valueOf` gives back the object itself.
   */
  function JsText(j: Json, num: real -> string): (r: Option<string>)
    ensures j.JStr? ==> r == Some(j.s)
    ensures j.JObj? ==> (r.None? <==> "toString" in j.fields)
    decreases j
  {
    match j
    case JNull => Some("null")
    case JBool(b) => Some(if b then "true" else "false")
    case JNum(n) => Some(num(n))
    case JStr(s) => Some(s)
    case JArr(items) => JoinTexts(items, num)
    case JObj(fields) => if "toString" in fields then None else Some("[object Object]")
  }

  /** `items.join(',')`: each element's text, `''` for `null`; `None` when one of them throws. */
  function JoinTexts(items: seq<Json>, num: real -> string): (r: Option<string>)
    ensures items == [] ==> r == Some("")
    decreases items
  {
    if items == [] then Some("")
    else
      var head := if items[0] == JNull then Some("") else JsText(items[0], num);
      if |items| == 1 then head
      else match (head, JoinTexts(items[1..], num))
        case (Some(h), Some(rest)) => Some(h + "," + rest)
        case _ => None
  }

  /** `String(x)` does not throw: no object on the way has its own `toString`. */
  predicate Printable(j: Json)
    decreases j
  {
    match j
    case JArr(items) => forall k :: 0 <= k < |items| ==> Printable(items[k])
    case JObj(fields) => "toString" !in fields
    case _ => true
  }

  /** `String(x)` gives a text exactly when the value is printable, whatever `num` writes for numbers. */
  lemma {:induction false} JsTextDefined(j: Json, num: real -> string)
    ensures JsText(j, num).Some? <==> Printable(j)
    decreases j, 1
  {
    if j.JArr? {
      JoinTextsDefined(j.items, num);
    }
  }

  /** `items.join(',')` gives a text exactly when every element is printable. */
  lemma {:induction false} JoinTextsDefined(items: seq<Json>, num: real -> string)
    ensures JoinTexts(items, num).Some? <==> forall k :: 0 <= k < |items| ==> Printable(items[k])
    decreases items, 0
  {
    if items != [] {
      JsTextDefined(items[0], num);
      if |items| > 1 {
        JoinTextsDefined(items[1..], num);
        assert forall k :: 1 <= k < |items| ==> items[k] == items[1..][k - 1];
      }
    }
  }

  /** How `aiData.choices?.[0]?.message?.content || ''` ends, and what a string method called on it meets. */
  datatype MessageText =
    | NullBody               // `aiData` is `null`: reading `choices` throws
    | NotText(value: Json)   // a truthy non-string: `replace` is not a function on it
    | Text(s: string)        // a string, or `''` for a falsy content

  /** The `content` of the first choice's `message`. */
  function MessageContent(body: Json): Option<Json> {
    Field(Field(AtZero(Field(Some(body), "choices")), "message"), "content")
  }

  /**
   * The gateway reply's text: `null` throws, a falsy content is `''`, a
   * string content is itself, and any other content is not text.
   */
  function ReadMessage(body: Json): (r: MessageText)
    ensures r.NullBody? <==> body == JNull
    ensures r.NotText? <==> body != JNull && TruthyOpt(MessageContent(body)) && !MessageContent(body).value.JStr?
    ensures r.NotText? ==> r.value == MessageContent(body).value
    ensures r.Text? && r.s != "" ==> MessageContent(body) == Some(JStr(r.s))
    ensures r == Text("") <==> body != JNull && !TruthyOpt(MessageContent(body))
  {
    if body == JNull then NullBody
    else
      var c := MessageContent(body);
      if !TruthyOpt(c) then Text("")
      else if c.value.JStr? then Text(c.value.s)
      else NotText(c.value)
  }
}
