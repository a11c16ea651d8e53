/** TelegramWebhookService: one webhook update end to end. Channel chats
    seen in the update may be remembered as the course channel; a
    chat_member update announcing that a user joined the course channel
    runs the engine's membership trigger; then the update is mapped to a
    request for the engine, and every message either step produces is
    handed to sendMessage, one failure not stopping the rest. */
module Webhook {
  import opened Wrappers
  import Seqs
  import opened JavaText
  import opened Decimal
  import opened JsonNode
  import opened Messages
  import opened Persistence
  import opened Subscription
  import opened FlowEngine
  import opened FlowAutomation
  import opened UpdateMapper
  import opened ApiClient

  /** The service's `normalize`: null as "", otherwise trimmed. */
  function NormalizeId(value: Option<string>): (r: string)
    ensures value.None? ==> r == ""
    ensures value.Some? ==> r == Trim(value.value)
  {
    if value.None? then "" else Trim(value.value)
  }

  /** isCourseChannelChat: with a course channel configured, only the
      trimmed configured id matches; without one, a non-blank detected id
      that equals the chat id. */
  function IsCourseChannelChat(ids: ChannelIds, registry: Registry, chatId: string): (r: bool)
    ensures !IsBlank(NormalizeId(ids.courseChannelId)) ==> (r <==> NormalizeId(ids.courseChannelId) == chatId)
    ensures IsBlank(NormalizeId(ids.courseChannelId)) ==> (r <==> HasText(registry) && registry.value == chatId)
  {
    var configured := NormalizeId(ids.courseChannelId);
    if !IsBlank(configured) then configured == chatId
    else
      var runtime := if registry.Some? then registry.value else "";
      !IsBlank(runtime) && runtime == chatId
  }

  /** A configured course channel makes the detected one irrelevant. */
  lemma ConfiguredCourseIdWins(ids: ChannelIds, a: Registry, b: Registry, chatId: string)
    requires !IsBlank(NormalizeId(ids.courseChannelId))
    ensures IsCourseChannelChat(ids, a, chatId) == IsCourseChannelChat(ids, b, chatId)
  {
  }

  /** maybeRememberRuntimeCourseChannelId: nothing when a course channel is
      configured or when the detected chat is the configured school
      channel; otherwise the registry remembers the detected id. */
  function MaybeRemember(ids: ChannelIds, registry: Registry, detected: string): (r: Registry)
    ensures !IsBlank(NormalizeId(ids.courseChannelId)) ==> r == registry
    ensures (IsBlank(NormalizeId(ids.courseChannelId)) && !IsBlank(NormalizeId(ids.schoolChannelId))
             && NormalizeId(ids.schoolChannelId) == detected) ==> r == registry
    ensures (IsBlank(NormalizeId(ids.courseChannelId))
             && (IsBlank(NormalizeId(ids.schoolChannelId)) || NormalizeId(ids.schoolChannelId) != detected)) ==>
      r == RememberCourseChannelId(registry, Some(detected))
  {
    if !IsBlank(NormalizeId(ids.courseChannelId)) then registry
    else
      var school := NormalizeId(ids.schoolChannelId);
      if !IsBlank(school) && school == detected then registry
      else RememberCourseChannelId(registry, Some(detected))
  }

  /** A runtime course id is remembered only when no course channel is
      configured and the detected chat is not the school channel. */
  lemma RememberedOnlyWhenUnconfigured(ids: ChannelIds, registry: Registry, detected: string)
    requires MaybeRemember(ids, registry, detected) != registry
    ensures IsBlank(NormalizeId(ids.courseChannelId))
    ensures IsBlank(NormalizeId(ids.schoolChannelId)) || NormalizeId(ids.schoolChannelId) != detected
    ensures MaybeRemember(ids, registry, detected) == Some(Trim(detected))
  {
  }

  /** The update carries, under `field`, an object whose chat is a
      channel. */
  predicate IsChannelChat(update: Node, field: string) {
    var chat := Path(Path(update, field), "chat");
    IsObject(Path(update, field)) && IsObject(chat) && AsText(Path(chat, "type")) == "channel"
  }

  /** The id of a channel chat under `field`, as parseLong reads it; no
      channel chat gives null without reading an id. */
  function ChannelChatId(update: Node, field: string): (r: Result<Option<int>, JsonException>)
    ensures !IsChannelChat(update, field) ==> r == Success(None)
    ensures IsChannelChat(update, field) ==> r == ParseLongNode(Path(Path(Path(update, field), "chat"), "id"))
  {
    var source := Path(update, field);
    if !IsObject(source) then Success(None)
    else
      var chat := Path(source, "chat");
      if !IsObject(chat) || AsText(Path(chat, "type")) != "channel" then Success(None)
      else ParseLongNode(Path(chat, "id"))
  }

  /** logDetectedChannelChatId: a channel chat under `field` is offered to
      maybeRememberRuntimeCourseChannelId with its id as Long.toString
      prints it; anything else leaves the registry alone; a chat id
      outside the long range throws. */
  function DetectChannel(ids: ChannelIds, registry: Registry, update: Node, field: string): (r: Result<Registry, JsonException>)
    ensures r.Failure? <==> ChannelChatId(update, field).Failure?
    ensures ChannelChatId(update, field) == Success(None) ==> r == Success(registry)
    ensures ChannelChatId(update, field).Success? && ChannelChatId(update, field).value.Some? ==>
      r == Success(MaybeRemember(ids, registry, Show(ChannelChatId(update, field).value.value)))
  {
    match ChannelChatId(update, field)
    case Failure(e) => Failure(e)
    case Success(None) => Success(registry)
    case Success(Some(chatId)) => Success(MaybeRemember(ids, registry, Show(chatId)))
  }

  /** The registry after a run of detections, and whether one of them
      threw; a throw ends the run with the registry as it stood. */
  datatype Detection = Detection(registry: Registry, thrown: bool)

  /** The detections for `fields`, in order, stopping at the first throw. */
  function DetectFields(ids: ChannelIds, registry: Registry, update: Node, fields: seq<string>): (r: Detection)
    ensures r.thrown <==> exists i :: 0 <= i < |fields| && ChannelChatId(update, fields[i]).Failure?
    decreases |fields|
  {
    if fields == [] then Detection(registry, false)
    else
      match DetectChannel(ids, registry, update, fields[0])
      case Failure(_) => Detection(registry, true)
      case Success(next) =>
        var rest := DetectFields(ids, next, update, fields[1..]);
        assert forall i :: 1 <= i < |fields| ==> fields[i] == fields[1..][i - 1];
        rest
  }

  /** The three update kinds looked at for channel chats, in order. */
  const CHANNEL_FIELDS: seq<string> := ["channel_post", "my_chat_member", "chat_member"]

  function DetectAll(ids: ChannelIds, registry: Registry, update: Node): (r: Detection)
    ensures r.thrown <==> exists i :: 0 <= i < |CHANNEL_FIELDS| && ChannelChatId(update, CHANNEL_FIELDS[i]).Failure?
  {
    DetectFields(ids, registry, update, CHANNEL_FIELDS)
  }

  /** With a course channel configured the registry never changes, even
      when a detection throws. */
  lemma {:induction false} DetectFieldsKeepsConfigured(ids: ChannelIds, registry: Registry, update: Node, fields: seq<string>)
    requires !IsBlank(NormalizeId(ids.courseChannelId))
    ensures DetectFields(ids, registry, update, fields).registry == registry
    decreases |fields|
  {
    if fields != [] {
      DetectFieldsKeepsConfigured(ids, registry, update, fields[1..]);
    }
  }

  lemma DetectAllKeepsConfigured(ids: ChannelIds, registry: Registry, update: Node)
    requires !IsBlank(NormalizeId(ids.courseChannelId))
    ensures DetectAll(ids, registry, update).registry == registry
  {
    DetectFieldsKeepsConfigured(ids, registry, update, CHANNEL_FIELDS);
  }

  /** processCourseChannelMembershipUpdate's filter: the user whose course
      subscription is confirmed, when the update is a chat_member update of
      a channel that is the course channel, the member's id parses, and the
      new status is member, administrator or creator. The chat id and, on
      the course channel, the member id go through parseLong and may
      throw. */
  function MembershipTarget(ids: ChannelIds, registry: Registry, update: Node): (r: Result<Option<int>, JsonException>)
    ensures var member := Path(Path(Path(Path(update, "chat_member"), "new_chat_member"), "user"), "id");
      r.Failure? <==>
        ChannelChatId(update, "chat_member").Failure?
        || (ChannelChatId(update, "chat_member").Success? && ChannelChatId(update, "chat_member").value.Some?
            && IsCourseChannelChat(ids, registry, Show(ChannelChatId(update, "chat_member").value.value))
            && LongValueThrows(member))
    ensures r.Success? && r.value.Some? <==>
      var newChatMember := Path(Path(update, "chat_member"), "new_chat_member");
      ChannelChatId(update, "chat_member").Success? && ChannelChatId(update, "chat_member").value.Some?
      && IsCourseChannelChat(ids, registry, Show(ChannelChatId(update, "chat_member").value.value))
      && LongIn(Path(Path(newChatMember, "user"), "id")).Some?
      && TextOrFallback(Path(newChatMember, "status"), "") in SUBSCRIBED_STATUSES
    ensures r.Success? && r.value.Some? ==>
      r.value == LongIn(Path(Path(Path(Path(update, "chat_member"), "new_chat_member"), "user"), "id"))
  {
    match ChannelChatId(update, "chat_member")
    case Failure(e) => Failure(e)
    case Success(None) => Success(None)
    case Success(Some(chatId)) =>
      if !IsCourseChannelChat(ids, registry, Show(chatId)) then Success(None)
      else
        var newChatMember := Path(Path(update, "chat_member"), "new_chat_member");
        match ParseLongNode(Path(Path(newChatMember, "user"), "id"))
        case Failure(e) => Failure(e)
        case Success(memberUserId) =>
          var newStatus := TextOrFallback(Path(newChatMember, "status"), "");
          if memberUserId.None? || newStatus !in SUBSCRIBED_STATUSES then Success(None) else Success(memberUserId)
  }

  /** The chat_member update Telegram sends when a user's status in a
      channel changes. */
  function ChatMemberUpdate(chatId: int, userId: int, status: string): Node {
    Obj(map["chat_member" := ChatMemberBody(chatId, userId, status)])
  }

  function ChatMemberBody(chatId: int, userId: int, status: string): Json {
    JObject(map["chat" := ChannelChat(chatId), "new_chat_member" := NewChatMember(userId, status)])
  }

  function ChannelChat(chatId: int): Json {
    JObject(map["id" := JNumber(chatId), "type" := JString("channel")])
  }

  function NewChatMember(userId: int, status: string): Json {
    JObject(map["user" := JObject(map["id" := JNumber(userId)]), "status" := JString(status)])
  }

  /** A user joining the course channel as a member, administrator or
      creator is confirmed; any other new status confirms nobody. */
  lemma JoiningCourseChannelConfirms(ids: ChannelIds, registry: Registry, chatId: int, userId: int, status: string)
    requires IsLong(chatId) && IsLong(userId)
    requires IsCourseChannelChat(ids, registry, Show(chatId))
    ensures status in SUBSCRIBED_STATUSES ==> MembershipTarget(ids, registry, ChatMemberUpdate(chatId, userId, status)) == Success(Some(userId))
    ensures status !in SUBSCRIBED_STATUSES ==> MembershipTarget(ids, registry, ChatMemberUpdate(chatId, userId, status)) == Success(None)
  {
    ChatMemberParts(chatId, userId, status);
    StatusText(status);
  }

  /** What the filter reads from a chat_member update: the channel chat id,
      the member's id and the new status. */
  lemma ChatMemberParts(chatId: int, userId: int, status: string)
    requires IsLong(chatId) && IsLong(userId)
    ensures ChannelChatId(ChatMemberUpdate(chatId, userId, status), "chat_member") == Success(Some(chatId))
    ensures var newChatMember := Path(Path(ChatMemberUpdate(chatId, userId, status), "chat_member"), "new_chat_member");
      ParseLongNode(Path(Path(newChatMember, "user"), "id")) == Success(Some(userId))
      && Path(newChatMember, "status") == Some(JString(status))
  {
    var update := ChatMemberUpdate(chatId, userId, status);
    assert Path(update, "chat_member") == Some(ChatMemberBody(chatId, userId, status));
    var chat := Path(Path(update, "chat_member"), "chat");
    assert chat == Some(ChannelChat(chatId));
    assert AsText(Path(chat, "type")) == "channel";
    assert Path(chat, "id") == Some(JNumber(chatId));
    var newChatMember := Path(Path(update, "chat_member"), "new_chat_member");
    assert newChatMember == Some(NewChatMember(userId, status));
    assert Path(Path(newChatMember, "user"), "id") == Some(JNumber(userId));
  }

  /** The status field reads back as the status, or as "" when blank; no
      status in the subscribed set is blank. */
  lemma StatusText(status: string)
    ensures status in SUBSCRIBED_STATUSES ==> TextOrFallback(Some(JString(status)), "") == status
    ensures status !in SUBSCRIBED_STATUSES ==> TextOrFallback(Some(JString(status)), "") !in SUBSCRIBED_STATUSES
  {
    if status in SUBSCRIBED_STATUSES {
      assert !IsWhitespace(status[0]);
    }
    assert "" !in SUBSCRIBED_STATUSES;
  }

  // ---- Delivery ------------------------------------------------------------

  /** BotMessageResponse for an engine message; `render` stands for the
      message wording. */
  function MessageResponse(m: BotMessage, render: Text -> string): (r: OutMessage)
    ensures r.recipientUserId == Some(m.recipient) && r.buttons == Some(m.buttons)
  {
    OutMessage(Some(m.recipient), Some(render(m.text)), Some(m.buttons))
  }

  /** The delivery settings: the bot token, whether Telegram accepts a
      payload, and the wording of each message kind. */
  datatype Delivery = Delivery(botToken: Option<string>, accepts: SendPayload -> bool, render: Text -> string)

  /** One sendMessage attempt per message, in order. */
  function Attempts(messages: seq<BotMessage>, d: Delivery): (r: seq<SendOutcome>)
    ensures |r| == |messages|
    ensures forall i :: 0 <= i < |messages| ==>
      r[i] == SendMessage(MessageResponse(messages[i], d.render), d.botToken, d.accepts)
  {
    if messages == [] then []
    else [SendMessage(MessageResponse(messages[0], d.render), d.botToken, d.accepts)] + Attempts(messages[1..], d)
  }

  /** Sending two batches one after the other is sending their
      concatenation. */
  lemma {:induction false} AttemptsConcat(a: seq<BotMessage>, b: seq<BotMessage>, d: Delivery)
    ensures Attempts(a + b, d) == Attempts(a, d) + Attempts(b, d)
  {
    if a == [] {
      assert a + b == b;
    } else {
      var head := [SendMessage(MessageResponse(a[0], d.render), d.botToken, d.accepts)];
      assert (a + b)[0] == a[0];
      assert (a + b)[1..] == a[1..] + b;
      AttemptsConcat(a[1..], b, d);
      Seqs.ConcatAssoc(head, Attempts(a[1..], d), Attempts(b, d));
    }
  }

  /** sendMessages: every message is handed to sendMessage in order; a
      message whose sending throws is logged and the loop goes on. */
  method SendMessages(messages: seq<BotMessage>, d: Delivery) returns (outcomes: seq<SendOutcome>)
    ensures |outcomes| == |messages|
    ensures forall i :: 0 <= i < |messages| ==>
      outcomes[i] == SendMessage(MessageResponse(messages[i], d.render), d.botToken, d.accepts)
    ensures outcomes == Attempts(messages, d)
  {
    outcomes := [];
    var i := 0;
    while i < |messages|
      invariant 0 <= i <= |messages|
      invariant |outcomes| == i
      invariant forall j :: 0 <= j < i ==> outcomes[j] == SendMessage(MessageResponse(messages[j], d.render), d.botToken, d.accepts)
    {
      var outcome := SendMessage(MessageResponse(messages[i], d.render), d.botToken, d.accepts);
      outcomes := outcomes + [outcome];
      i := i + 1;
    }
  }

  /** A delivery failure of one message does not keep the later ones from
      being attempted: with a token and rendered text, every message after
      a failed one is still delivered when Telegram accepts it. */
  lemma FailureDoesNotStopDelivery(messages: seq<BotMessage>, d: Delivery, outcomes: seq<SendOutcome>, i: int)
    requires |outcomes| == |messages|
    requires forall j :: 0 <= j < |messages| ==>
      outcomes[j] == SendMessage(MessageResponse(messages[j], d.render), d.botToken, d.accepts)
    requires HasText(d.botToken) && forall t :: !IsBlank(d.render(t))
    requires 0 <= i < |messages|
    ensures var p := SendPayload(messages[i].recipient, d.render(messages[i].text), ReplyMarkupOf(Some(messages[i].buttons)));
      d.accepts(p) ==> outcomes[i] == Delivered(p)
  {
  }

  // ---- processUpdate -------------------------------------------------------

  /** The membership trigger's part of an update: the engine's answer for
      the confirmed user, or nothing. */
  function MembershipStep(st: Store, target: Option<int>, env: Env): (o: Outcome)
    requires Keyed(st)
    ensures Keyed(o.store)
    ensures target.None? ==> o == Outcome(st, [])
  {
    match target
    case Some(uid) => HandleCourseChannelSubscriptionConfirmed(st, uid, env)
    case None => Outcome(st, [])
  }

  /** The mapped request's part of an update: the engine's answer, or
      nothing when the update does not map. */
  function RequestStep(st: Store, request: Option<Request>, env: Env): (o: Outcome)
    requires Keyed(st)
    ensures Keyed(o.store)
    ensures request.None? ==> o == Outcome(st, [])
    ensures request.Some? ==> o.store.contexts.Keys == st.contexts.Keys + {request.value.userId}
  {
    match request
    case Some(req) => HandleUpdate(st, req, env)
    case None => Outcome(st, [])
  }

  /** processUpdate: the channel-chat detection, the membership trigger with
      its messages sent, then the mapped request through the engine with
      its messages sent. An update that does not map never reaches the
      engine's handleUpdate. A number that parseLong cannot read as a long
      throws out of processUpdate (`thrown`) at the point where it is read:
      what was done before it stays done and nothing after it happens. The
      oracle answers in `env` are those the checks give under the registry
      as it stands after detection. */
  method ProcessUpdate(st: Store, registry: Registry, update: Node, env: Env, ids: ChannelIds, d: Delivery)
    returns (st': Store, registry': Registry, outcomes: seq<SendOutcome>, thrown: bool)
    requires Keyed(st)
    ensures Keyed(st')
    ensures registry' == DetectAll(ids, registry, update).registry
    ensures thrown <==>
      DetectAll(ids, registry, update).thrown || MembershipTarget(ids, registry', update).Failure? || MapUpdate(update).Failure?
    ensures DetectAll(ids, registry, update).thrown || MembershipTarget(ids, registry', update).Failure? ==>
      st' == st && outcomes == []
    ensures !DetectAll(ids, registry, update).thrown && MembershipTarget(ids, registry', update).Success? ==>
      var first := MembershipStep(st, MembershipTarget(ids, registry', update).value, env);
      (MapUpdate(update).Failure? ==> st' == first.store && outcomes == Attempts(first.messages, d))
      && (MapUpdate(update).Success? ==>
            var second := RequestStep(first.store, MapUpdate(update).value, env);
            st' == second.store && outcomes == Attempts(first.messages + second.messages, d))
    ensures !thrown && MembershipTarget(ids, registry', update) == Success(None) && MapUpdate(update) == Success(None) ==>
      st' == st && outcomes == []
  {
    var detection := DetectAll(ids, registry, update);
    registry' := detection.registry;
    st', outcomes, thrown := st, [], true;
    if !detection.thrown {
      match MembershipTarget(ids, registry', update)
      case Failure(_) =>
      case Success(target) =>
        var first := MembershipStep(st, target, env);
        var sent1 := SendMessages(first.messages, d);
        st', outcomes := first.store, sent1;
        match MapUpdate(update)
        case Failure(_) =>
        case Success(request) =>
          var second := RequestStep(first.store, request, env);
          var sent2 := SendMessages(second.messages, d);
          AttemptsConcat(first.messages, second.messages, d);
          st', outcomes, thrown := second.store, sent1 + sent2, false;
    }
  }
}
