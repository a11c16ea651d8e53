/** TelegramUpdateMapper: a Telegram update, as JSON, to the engine's
    BotUpdateRequest. A callback query wins over a message; an update that
    has neither, or whose sender id does not parse, maps to nothing; a
    sender or contact id outside the long range makes parseLong throw, and
    the throw (a Failure) leaves the mapper. The parsed update carries no
    username, so the request's username is always absent. */
module UpdateMapper {
  import opened Wrappers
  import opened JavaText
  import opened Decimal
  import opened JsonNode
  import opened FlowEngine

  /** map: null and missing updates, and updates with neither a
      callback_query object nor a message object, give nothing. */
  function MapUpdate(update: Node): (r: Result<Option<Request>, JsonException>)
    ensures update.None? || update == Some(JNull) ==> r == Success(None)
    ensures IsObject(Path(update, "callback_query")) ==> r == MapCallback(Path(update, "callback_query"))
    ensures !IsObject(Path(update, "callback_query")) && IsObject(Path(update, "message")) ==>
      r == MapMessage(Path(update, "message"))
    ensures !IsObject(Path(update, "callback_query")) && !IsObject(Path(update, "message")) ==> r == Success(None)
  {
    if update.None? || update == Some(JNull) then Success(None)
    else
      var callbackQuery := Path(update, "callback_query");
      if IsObject(callbackQuery) then MapCallback(callbackQuery)
      else
        var message := Path(update, "message");
        if IsObject(message) then MapMessage(message) else Success(None)
  }

  /** mapMessage: the sender's id, display name, text and contact. The
      sender id is read first, so a throw there comes before the contact
      is looked at. */
  function MapMessage(message: Node): (r: Result<Option<Request>, JsonException>)
    ensures r.Failure? <==>
      LongValueThrows(Path(Path(message, "from"), "id"))
      || (LongIn(Path(Path(message, "from"), "id")).Some? && ParseContact(Path(message, "contact")).Failure?)
    ensures r == Success(None) <==>
      !LongValueThrows(Path(Path(message, "from"), "id")) && LongIn(Path(Path(message, "from"), "id")).None?
    ensures r.Success? && r.value.Some? ==>
      var from := Path(message, "from");
      LongIn(Path(from, "id")).Some? && ParseContact(Path(message, "contact")).Success?
      && r.value.value == Request(LongIn(Path(from, "id")).value, Some(ResolveFirstName(from)), None,
                                  TextOrNull(Path(message, "text")), None, ParseContact(Path(message, "contact")).value)
  {
    var from := Path(message, "from");
    match ParseLongNode(Path(from, "id"))
    case Failure(e) => Failure(e)
    case Success(None) => Success(None)
    case Success(Some(userId)) =>
      match ParseContact(Path(message, "contact"))
      case Failure(e) => Failure(e)
      case Success(contact) =>
        Success(Some(Request(userId, Some(ResolveFirstName(from)), None, TextOrNull(Path(message, "text")), None, contact)))
  }

  /** mapCallback: the sender's id and display name with the callback data;
      blank or absent data gives nothing. */
  function MapCallback(callbackQuery: Node): (r: Result<Option<Request>, JsonException>)
    ensures r.Failure? <==> LongValueThrows(Path(Path(callbackQuery, "from"), "id"))
    ensures r.Success? && r.value.Some? <==>
      LongIn(Path(Path(callbackQuery, "from"), "id")).Some? && TextOrNull(Path(callbackQuery, "data")).Some?
    ensures r.Success? && r.value.Some? ==>
      r.value.value.callbackData == TextOrNull(Path(callbackQuery, "data")) && HasText(r.value.value.callbackData)
      && r.value.value.text.None? && r.value.value.contact.None? && r.value.value.username.None?
      && Some(r.value.value.userId) == LongIn(Path(Path(callbackQuery, "from"), "id"))
  {
    var from := Path(callbackQuery, "from");
    match ParseLongNode(Path(from, "id"))
    case Failure(e) => Failure(e)
    case Success(None) => Success(None)
    case Success(Some(userId)) =>
      var data := TextOrNull(Path(callbackQuery, "data"));
      if !HasText(data) then Success(None)
      else Success(Some(Request(userId, Some(ResolveFirstName(from)), None, None, data, None)))
  }

  /** parseContact: kept only as an object whose user_id parses and whose
      phone number has text; a user_id outside the long range throws. */
  function ParseContact(node: Node): (r: Result<Option<Contact>, JsonException>)
    ensures r.Failure? <==> IsObject(node) && LongValueThrows(Path(node, "user_id"))
    ensures r.Success? && r.value.Some? <==>
      IsObject(node) && LongIn(Path(node, "user_id")).Some? && TextOrNull(Path(node, "phone_number")).Some?
    ensures r.Success? && r.value.Some? ==>
      r.value.value.userId == LongIn(Path(node, "user_id")) && r.value.value.phoneNumber == TextOrNull(Path(node, "phone_number"))
      && HasText(r.value.value.phoneNumber)
  {
    if !IsObject(node) then Success(None)
    else
      match ParseLongNode(Path(node, "user_id"))
      case Failure(e) => Failure(e)
      case Success(userId) =>
        var phone := TextOrNull(Path(node, "phone_number"));
        if userId.None? || !HasText(phone) then Success(None) else Success(Some(Contact(userId, phone)))
  }

  const DEFAULT_FIRST_NAME: string := "user"

  /** resolveFirstName: first_name if it has text, else username if it has
      text, else "user". */
  function ResolveFirstName(from: Node): (r: string)
    ensures !IsBlank(r)
    ensures TextOrNull(Path(from, "first_name")).Some? ==> r == TextOrNull(Path(from, "first_name")).value
    ensures TextOrNull(Path(from, "first_name")).None? && TextOrNull(Path(from, "username")).Some? ==>
      r == TextOrNull(Path(from, "username")).value
    ensures TextOrNull(Path(from, "first_name")).None? && TextOrNull(Path(from, "username")).None? ==>
      r == DEFAULT_FIRST_NAME
  {
    var firstName := TextOrNull(Path(from, "first_name"));
    if HasText(firstName) then firstName.value
    else
      var username := TextOrNull(Path(from, "username"));
      if HasText(username) then username.value
      else assert !IsWhitespace(DEFAULT_FIRST_NAME[0]); DEFAULT_FIRST_NAME
  }

  // ---- Round trips ---------------------------------------------------------

  /** The JSON Telegram sends for a text message from a user. */
  function TextMessageUpdate(userId: int, firstName: string, text: string): Node {
    Obj(map["update_id" := JNumber(1),
            "message" := JObject(map["from" := JObject(map["id" := JNumber(userId), "first_name" := JString(firstName)]),
                                     "text" := JString(text)])])
  }

  /** The JSON of a button press, with a text message object alongside it. */
  function CallbackUpdate(userId: int, firstName: string, data: string): Node {
    Obj(map["update_id" := JNumber(1),
            "message" := JObject(map["from" := JObject(map["id" := JNumber(userId), "first_name" := JString(firstName)]),
                                     "text" := JString("text")]),
            "callback_query" := JObject(map["from" := JObject(map["id" := JNumber(userId), "first_name" := JString(firstName)]),
                                            "data" := JString(data)])])
  }

  /** A text message reaches the engine with exactly the sender, name and
      text it carried. */
  lemma TextMessageRoundTrip(userId: int, firstName: string, text: string)
    requires IsLong(userId) && !IsBlank(firstName) && !IsBlank(text)
    ensures MapUpdate(TextMessageUpdate(userId, firstName, text))
         == Success(Some(Request(userId, Some(firstName), None, Some(text), None, None)))
  {
    var update := TextMessageUpdate(userId, firstName, text);
    assert !IsObject(Path(update, "callback_query"));
    var message := Path(update, "message");
    assert Path(message, "contact").None?;
    assert TextOrNull(Path(message, "text")) == Some(text);
  }

  /** A button press reaches the engine with exactly the sender, name and
      callback data it carried, even when a message object rides along. */
  lemma CallbackRoundTrip(userId: int, firstName: string, data: string)
    requires IsLong(userId) && !IsBlank(firstName) && !IsBlank(data)
    ensures MapUpdate(CallbackUpdate(userId, firstName, data))
         == Success(Some(Request(userId, Some(firstName), None, None, Some(data), None)))
  {
    var update := CallbackUpdate(userId, firstName, data);
    assert TextOrNull(Path(Path(update, "callback_query"), "data")) == Some(data);
  }

  /** A text message whose sender id lies outside the long range never
      maps: longValue throws, so the update reaches neither the engine nor
      the "no request" path. */
  lemma OutOfRangeSenderThrows(userId: int, firstName: string, text: string)
    requires !IsLong(userId)
    ensures MapUpdate(TextMessageUpdate(userId, firstName, text)).Failure?
  {
    var update := TextMessageUpdate(userId, firstName, text);
    assert !IsObject(Path(update, "callback_query"));
    assert Path(Path(Path(update, "message"), "from"), "id") == Some(JNumber(userId));
  }
}
