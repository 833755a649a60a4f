/** The JSON values `JSON.parse` produces, and the few JavaScript operations
    the proxy applies to them: truthiness, optional property access (`v?.key`),
    `||`, and the string conversion `v.toString()`. */
module Json {
  import opened Wrappers

  /** A parsed JSON value. A number is kept as the text JavaScript renders it
      with (`String(n)`), so every zero, `-0` included, is `JNum("0")`. Object
      keys are unique: `JSON.parse` keeps the last of repeated keys. */
  datatype Json =
    | JNull
    | JBool(b: bool)
    | JNum(text: string)
    | JStr(s: string)
    | JArr(items: seq<Json>)
    | JObj(fields: map<string, Json>)

  /** JavaScript truthiness: `null`, `false`, `0` and `""` are falsy. */
  predicate Truthy(v: Json) {
    match v
    case JNull => false
    case JBool(b) => b
    case JNum(t) => t != "0"
    case JStr(s) => s != ""
    case _ => true
  }

  /** `v?.key`, with `None` for `undefined`. Only objects carry the keys the
      proxy reads: strings, numbers, booleans and arrays have no property named
      `action`, `message`, `data` or any request field. */
  function Prop(v: Json, key: string): Option<Json> {
    if v.JObj? && key in v.fields then Some(v.fields[key]) else None
  }

  /** `a || b` where `a` is an optional chain that may be `undefined`. */
  function Or(a: Option<Json>, b: Json): Json {
    if a.Some? && Truthy(a.value) then a.value else b
  }

  /** `v.toString()` on a value that is not null, or `None` when the call throws
      a TypeError: JSON cannot carry functions, so an object with an own
      `toString` key has a non-callable `toString`. An array joins its elements
      with commas, a null element giving the empty string. */
  function ToText(v: Json): Option<string>
    decreases v
  {
    match v
    case JNull => Some("null")
    case JBool(b) => Some(if b then "true" else "false")
    case JNum(t) => Some(t)
    case JStr(s) => Some(s)
    case JArr(items) => JoinItems(items)
    case JObj(fields) => if "toString" in fields then None else Some("[object Object]")
  }

  /** `items.join(",")`, or `None` when converting an element throws. */
  function JoinItems(items: seq<Json>): Option<string>
    decreases items
  {
    if items == [] then Some("")
    else
      var head := if items[0].JNull? then Some("") else ToText(items[0]);
      if head.None? then None
      else if |items| == 1 then head
      else
        var tail := JoinItems(items[1..]);
        if tail.None? then None else Some(head.value + "," + tail.value)
  }

  /** `join` throws exactly when converting one of the non-null elements
      throws. */
  lemma {:induction false} JoinItemsThrows(items: seq<Json>)
    ensures JoinItems(items).Some? <==> forall i :: 0 <= i < |items| ==> items[i].JNull? || ToText(items[i]).Some?
    decreases |items|
  {
    if items != [] && |items| > 1 {
      JoinItemsThrows(items[1..]);
      assert forall i :: 1 <= i < |items| ==> items[i] == items[1..][i - 1];
    }
  }

  /** A number converts to its own rendering, `null` and the booleans to
      their names, and an object to "[object Object]" unless it has its own
      `toString` key, which makes the call throw. */
  lemma ToTextScalars(v: Json)
    ensures v.JNum? ==> ToText(v) == Some(v.text)
    ensures v.JBool? ==> ToText(v) == Some(if v.b then "true" else "false")
    ensures v.JObj? ==> (ToText(v).None? <==> "toString" in v.fields)
    ensures v.JObj? && "toString" !in v.fields ==> ToText(v) == Some("[object Object]")
  {
  }
}
