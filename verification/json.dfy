/** The slice of Jackson's JsonNode that the Telegram side reads: a JSON
    value, the `path` navigation that yields a missing node instead of
    null, and the bot's small readers on top of it (parseLong, textOrNull,
    textOrFallback). A missing node is `None`. */
module JsonNode {
  import opened Wrappers
  import opened JavaText
  import opened Decimal

  /** A JSON value. Numbers are integral; object keys are unique, as in
      Jackson's ObjectNode. */
  datatype Json =
    | JNull
    | JBool(b: bool)
    | JNumber(n: int)
    | JString(s: string)
    | JArray(items: seq<Json>)
    | JObject(fields: map<string, Json>)

  /** A node as `path` hands it out: a value, or the missing node. */
  type Node = Option<Json>

  predicate IsObject(node: Node) {
    node.Some? && node.value.JObject?
  }

  /** JsonNode.path(key): the field of an object, the missing node for an
      absent field and for every node that is not an object. */
  function Path(node: Node, key: string): (r: Node)
    ensures IsObject(node) && key in node.value.fields ==> r == Some(node.value.fields[key])
    ensures !IsObject(node) || key !in node.value.fields ==> r.None?
  {
    match node
    case Some(JObject(fields)) => if key in fields then Some(fields[key]) else None
    case _ => None
  }

  /** An object node from its fields. */
  function Obj(fields: map<string, Json>): Node {
    Some(JObject(fields))
  }

  /** What Jackson's JsonNode.longValue throws (a JsonNodeException) on a
      number that has no exact long value. */
  datatype JsonException = JsonNodeException

  /** A number node outside the long range: longValue throws on it rather
      than keeping the low 64 bits. */
  predicate LongValueThrows(node: Node) {
    node.Some? && node.value.JNumber? && !IsLong(node.value.n)
  }

  /** JsonNode.asText: the text of a string node, the printed form of a
      number or boolean, "null" for null, and "" for containers and for the
      missing node. */
  function AsText(node: Node): (r: string)
    ensures node.Some? && node.value.JString? ==> r == node.value.s
    ensures node.None? || (node.Some? && (node.value.JArray? || node.value.JObject?)) ==> r == ""
  {
    match node
    case None => ""
    case Some(JNull) => "null"
    case Some(JBool(b)) => if b then "true" else "false"
    case Some(JNumber(n)) => Show(n)
    case Some(JString(s)) => s
    case Some(JArray(_)) => ""
    case Some(JObject(_)) => ""
  }

  /** The bot's parseLong: a number node gives longValue, which throws
      when the number is no long; a string node is handed to
      Long.parseLong, whose NumberFormatException gives null; any other
      node, null or missing, gives null. */
  function ParseLongNode(node: Node): (r: Result<Option<int>, JsonException>)
    ensures r.Failure? <==> LongValueThrows(node)
    ensures r.Success? && r.value.Some? ==> IsLong(r.value.value)
    ensures r.Success? && r.value.Some? <==>
      node.Some? && ((node.value.JNumber? && IsLong(node.value.n)) || (node.value.JString? && ParseLong(node.value.s).Some?))
    ensures node.Some? && node.value.JNumber? && IsLong(node.value.n) ==> r == Success(Some(node.value.n))
    ensures node.Some? && node.value.JString? ==> r == Success(ParseLong(node.value.s))
  {
    match node
    case Some(JNumber(n)) => if IsLong(n) then Success(Some(n)) else Failure(JsonNodeException)
    case Some(JString(s)) => Success(ParseLong(s))
    case _ => Success(None)
  }

  /** The long parseLong returns for a node, when it returns one; None
      both for null and for a throw. */
  function LongIn(node: Node): (r: Option<int>)
    ensures !LongValueThrows(node) ==> ParseLongNode(node) == Success(r)
    ensures LongValueThrows(node) ==> r.None?
  {
    match ParseLongNode(node)
    case Success(v) => v
    case Failure(_) => None
  }

  /** textOrNull: None for a null or missing node, and for a node whose
      text is blank; otherwise its text. */
  function TextOrNull(node: Node): (r: Option<string>)
    ensures r.Some? ==> HasText(r)
    ensures node.None? || node == Some(JNull) ==> r.None?
    ensures node.Some? && node.value.JString? ==> (r.Some? <==> HasText(Some(node.value.s)))
    ensures node.Some? && node.value.JString? && r.Some? ==> r.value == node.value.s
  {
    if node.None? || node == Some(JNull) then None
    else var v := AsText(node); if HasText(Some(v)) then Some(v) else None
  }

  /** textOrFallback: the node's text when it has text, else the fallback. */
  function TextOrFallback(node: Node, fallback: string): (r: string)
    ensures r == fallback || (TextOrNull(node) == Some(r))
    ensures TextOrNull(node).None? ==> r == fallback
  {
    match TextOrNull(node)
    case Some(v) => v
    case None => fallback
  }

  /** A long printed as a JSON string reads back through parseLong, as
      does the same long as a JSON number. */
  lemma ParseLongNodeRoundTrip(n: int)
    requires IsLong(n)
    ensures ParseLongNode(Some(JString(Show(n)))) == Success(Some(n))
    ensures ParseLongNode(Some(JNumber(n))) == Success(Some(n))
  {
    ParseLongShow(n);
  }
}
