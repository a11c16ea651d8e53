/** The parts of TelegramApiClientImpl that decide what goes on the wire:
    the reply-markup builder and the guard in front of sendMessage. The
    HTTP exchange is a parameter: whether Telegram accepts a payload. */
module ApiClient {
  import opened Wrappers
  import opened JavaText
  import opened Messages

  /** BotMessageResponse as the client receives it: every field may be
      null. */
  datatype OutMessage = OutMessage(recipientUserId: Option<int>, text: Option<string>, buttons: Option<seq<Button>>)

  /** One key of a keyboard row: a reply-keyboard contact request, or an
      inline button carrying callback data or a URL. */
  datatype Key =
    | ContactKey(text: string)
    | CallbackKey(text: string, callbackData: Option<string>)
    | UrlKey(text: string, url: Option<string>)

  /** The reply_markup object: a one-row reply keyboard with its two flags,
      or a one-row inline keyboard. */
  datatype ReplyMarkup =
    | ReplyKeyboard(row: seq<Key>, resizeKeyboard: bool, oneTimeKeyboard: bool)
    | InlineKeyboard(row: seq<Key>)

  predicate HasContactButton(buttons: seq<Button>) {
    exists i :: 0 <= i < |buttons| && buttons[i].buttonType == RequestContact
  }

  /** The contact buttons, in order, as contact keys. */
  function ContactRow(buttons: seq<Button>): (row: seq<Key>)
    decreases |buttons|
  {
    if buttons == [] then []
    else
      var last := buttons[|buttons| - 1];
      ContactRow(buttons[..|buttons| - 1]) + (if last.buttonType == RequestContact then [ContactKey(last.text)] else [])
  }

  /** A button as an inline key; contact buttons have none. */
  function InlineKey(b: Button): (k: Option<Key>)
    ensures k.None? <==> b.buttonType == RequestContact
  {
    match b.buttonType
    case Callback => Some(CallbackKey(b.text, b.value))
    case Url => Some(UrlKey(b.text, b.value))
    case RequestContact => None
  }

  /** The callback and URL buttons, in order, as inline keys. */
  function InlineRow(buttons: seq<Button>): (row: seq<Key>)
    decreases |buttons|
  {
    if buttons == [] then []
    else
      var last := buttons[|buttons| - 1];
      InlineRow(buttons[..|buttons| - 1]) + (match InlineKey(last) case Some(k) => [k] case None => [])
  }

  /** The markup buildReplyMarkup produces, stated over the whole list:
      none for a null or empty list; the contact keys as a reply keyboard
      when there is a contact button; the other keys inline otherwise; and
      none when the chosen row is empty. */
  function ReplyMarkupOf(buttons: Option<seq<Button>>): (r: Option<ReplyMarkup>)
  {
    if buttons.None? || buttons.value == [] then None
    else if HasContactButton(buttons.value) then
      var row := ContactRow(buttons.value);
      if row == [] then None else Some(ReplyKeyboard(row, true, true))
    else
      var row := InlineRow(buttons.value);
      if row == [] then None else Some(InlineKeyboard(row))
  }

  /** buildReplyMarkup: one scan for a contact button, then one pass
      collecting the row of that kind. */
  method BuildReplyMarkup(buttons: Option<seq<Button>>) returns (markup: Option<ReplyMarkup>)
    ensures markup == ReplyMarkupOf(buttons)
    ensures markup.None? <==> buttons.None? || buttons.value == []
    ensures markup.Some? && markup.value.ReplyKeyboard? ==>
      markup.value.resizeKeyboard && markup.value.oneTimeKeyboard
      && forall i :: 0 <= i < |markup.value.row| ==> markup.value.row[i].ContactKey?
    ensures markup.Some? && markup.value.InlineKeyboard? ==>
      |markup.value.row| == |buttons.value| && forall i :: 0 <= i < |markup.value.row| ==> !markup.value.row[i].ContactKey?
  {
    if buttons.None? || buttons.value == [] {
      return None;
    }
    var bs := buttons.value;
    var containsContact := false;
    var i := 0;
    while i < |bs|
      invariant 0 <= i <= |bs|
      invariant containsContact <==> HasContactButton(bs[..i])
    {
      assert bs[..i + 1] == bs[..i] + [bs[i]];
      containsContact := containsContact || bs[i].buttonType == RequestContact;
      i := i + 1;
    }
    assert bs[..|bs|] == bs;
    var row: seq<Key> := [];
    i := 0;
    if containsContact {
      while i < |bs|
        invariant 0 <= i <= |bs|
        invariant row == ContactRow(bs[..i])
      {
        assert bs[..i + 1][..i] == bs[..i];
        if bs[i].buttonType == RequestContact {
          row := row + [ContactKey(bs[i].text)];
        }
        i := i + 1;
      }
      assert bs[..|bs|] == bs;
      ContactRowShape(bs);
      if row == [] {
        return None;
      }
      return Some(ReplyKeyboard(row, true, true));
    }
    while i < |bs|
      invariant 0 <= i <= |bs|
      invariant row == InlineRow(bs[..i])
    {
      assert bs[..i + 1][..i] == bs[..i];
      if bs[i].buttonType == Callback {
        row := row + [CallbackKey(bs[i].text, bs[i].value)];
      } else if bs[i].buttonType == Url {
        row := row + [UrlKey(bs[i].text, bs[i].value)];
      }
      i := i + 1;
    }
    assert bs[..|bs|] == bs;
    InlineRowShape(bs);
    if row == [] {
      return None;
    }
    return Some(InlineKeyboard(row));
  }

  /** The contact row holds only contact keys, one per contact button, and
      is empty exactly when there is no contact button. */
  lemma {:induction false} ContactRowShape(buttons: seq<Button>)
    ensures forall i :: 0 <= i < |ContactRow(buttons)| ==> ContactRow(buttons)[i].ContactKey?
    ensures ContactRow(buttons) == [] <==> !HasContactButton(buttons)
    decreases |buttons|
  {
    if buttons != [] {
      var init := buttons[..|buttons| - 1];
      ContactRowShape(init);
      if HasContactButton(init) {
        var j :| 0 <= j < |init| && init[j].buttonType == RequestContact;
        assert buttons[j] == init[j];
      }
      if HasContactButton(buttons) && buttons[|buttons| - 1].buttonType != RequestContact {
        var j :| 0 <= j < |buttons| && buttons[j].buttonType == RequestContact;
        assert init[j] == buttons[j];
      }
    }
  }

  /** Without contact buttons every button becomes one inline key, in
      order: callback data for a callback button, the URL for a URL
      button. */
  lemma {:induction false} InlineRowShape(buttons: seq<Button>)
    requires !HasContactButton(buttons)
    ensures |InlineRow(buttons)| == |buttons|
    ensures forall i :: 0 <= i < |buttons| ==> Some(InlineRow(buttons)[i]) == InlineKey(buttons[i])
    decreases |buttons|
  {
    if buttons != [] {
      var init := buttons[..|buttons| - 1];
      forall j | 0 <= j < |init|
        ensures init[j].buttonType != RequestContact
      {
        assert init[j] == buttons[j];
      }
      InlineRowShape(init);
      assert buttons[|buttons| - 1].buttonType != RequestContact;
    }
  }

  // ---- sendMessage ---------------------------------------------------------

  /** The sendMessage request body: chat id, text and, when there is one,
      the reply markup. */
  datatype SendPayload = SendPayload(chatId: int, text: string, replyMarkup: Option<ReplyMarkup>)

  /** What one sendMessage call does: returns without a request, posts a
      payload Telegram accepts, or throws. */
  datatype SendOutcome = Skipped | Delivered(payload: SendPayload) | Threw(reason: string)

  /** The guard: a message is sent only with a recipient and a text that
      has text. */
  predicate Sendable(m: OutMessage) {
    m.recipientUserId.Some? && HasText(m.text)
  }

  /** sendMessage: nothing for an unsendable message; an exception for a
      blank bot token or a reply that is not ok; otherwise the payload is
      delivered. */
  function SendMessage(m: OutMessage, botToken: Option<string>, accepts: SendPayload -> bool): (o: SendOutcome)
    ensures !Sendable(m) ==> o == Skipped
    ensures Sendable(m) && !HasText(botToken) ==> o.Threw?
    ensures o.Delivered? ==>
      Sendable(m) && HasText(botToken) && accepts(o.payload)
      && o.payload == SendPayload(m.recipientUserId.value, m.text.value, ReplyMarkupOf(m.buttons))
    ensures Sendable(m) && HasText(botToken) ==>
      var p := SendPayload(m.recipientUserId.value, m.text.value, ReplyMarkupOf(m.buttons));
      (accepts(p) ==> o == Delivered(p)) && (!accepts(p) ==> o.Threw?)
  {
    if !Sendable(m) then Skipped
    else if !HasText(botToken) then Threw("tajwid.telegram.bot-token is empty")
    else
      var payload := SendPayload(m.recipientUserId.value, m.text.value, ReplyMarkupOf(m.buttons));
      if accepts(payload) then Delivered(payload) else Threw("Telegram sendMessage failed")
  }
}
