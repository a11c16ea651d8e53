/** Channel-membership checks: the in-memory stub, the Telegram-backed
    service, and the runtime registry of the detected course channel. */
module Subscription {
  import opened Wrappers
  import opened Domain
  import opened JavaText

  /** The answers the flow engine gets to "is user u in the school channel?"
      and "is user u in the course channel?" while it handles one event. */
  datatype Oracle = Oracle(school: int -> SubscriptionCheckResult, course: int -> SubscriptionCheckResult)

  // ---- StubChannelSubscriptionService -------------------------------------

  datatype SubscriptionState = SubscriptionState(schoolSubscribed: bool, courseSubscribed: bool)

  /** The stub's map from user id to its recorded state. */
  type StubStates = map<int, SubscriptionState>

  /** The stub never answers ERROR; an unknown user is not subscribed. */
  function StubCheckSchool(states: StubStates, userId: int): (r: SubscriptionCheckResult)
    ensures r != CheckError
    ensures r == Subscribed <==> userId in states && states[userId].schoolSubscribed
  {
    if userId !in states then NotSubscribed
    else if states[userId].schoolSubscribed then Subscribed else NotSubscribed
  }

  function StubCheckCourse(states: StubStates, userId: int): (r: SubscriptionCheckResult)
    ensures r != CheckError
    ensures r == Subscribed <==> userId in states && states[userId].courseSubscribed
  {
    if userId !in states then NotSubscribed
    else if states[userId].courseSubscribed then Subscribed else NotSubscribed
  }

  /** setSubscriptionState: replaces the user's state. */
  function SetSubscriptionState(states: StubStates, userId: int, school: bool, course: bool): (r: StubStates)
    ensures r.Keys == states.Keys + {userId}
    ensures r[userId] == SubscriptionState(school, course)
    ensures forall k :: k in states && k != userId ==> r[k] == states[k]
  {
    states[userId := SubscriptionState(school, course)]
  }

  /** getSubscriptionState: the recorded state, or (false, false). */
  function GetSubscriptionState(states: StubStates, userId: int): (r: SubscriptionState)
    ensures userId !in states ==> r == SubscriptionState(false, false)
    ensures userId in states ==> r == states[userId]
  {
    if userId in states then states[userId] else SubscriptionState(false, false)
  }

  /** After setSubscriptionState, both checks report exactly what was set
      for that user and nothing changes for anyone else. */
  lemma StubSetThenCheck(states: StubStates, userId: int, school: bool, course: bool, other: int)
    requires other != userId
    ensures var r := SetSubscriptionState(states, userId, school, course);
      (StubCheckSchool(r, userId) == Subscribed <==> school)
      && (StubCheckCourse(r, userId) == Subscribed <==> course)
      && StubCheckSchool(r, other) == StubCheckSchool(states, other)
      && StubCheckCourse(r, other) == StubCheckCourse(states, other)
      && GetSubscriptionState(r, userId) == SubscriptionState(school, course)
  {
  }

  function StubOracle(states: StubStates): Oracle {
    Oracle(u => StubCheckSchool(states, u), u => StubCheckCourse(states, u))
  }

  // ---- TelegramRuntimeChannelRegistry --------------------------------------

  /** The detected course channel id; None until something is remembered. */
  type Registry = Option<string>

  const INITIAL_REGISTRY: Registry := None

  /** rememberCourseChannelId: a blank or null id is ignored; otherwise the
      trimmed id replaces whatever was stored. */
  function RememberCourseChannelId(registry: Registry, chatId: Option<string>): (r: Registry)
    ensures !HasText(chatId) ==> r == registry
    ensures HasText(chatId) ==> r == Some(Trim(chatId.value))
  {
    if !HasText(chatId) then registry else Some(Trim(chatId.value))
  }

  function RememberAll(registry: Registry, writes: seq<Option<string>>): Registry
    decreases |writes|
  {
    if writes == [] then registry
    else RememberAll(RememberCourseChannelId(registry, writes[0]), writes[1..])
  }

  /** The id a sequence of writes leaves: the trimmed last non-blank one. */
  function LastNonBlank(writes: seq<Option<string>>): Option<string>
    decreases |writes|
  {
    if writes == [] then None
    else if HasText(writes[|writes| - 1]) then Some(Trim(writes[|writes| - 1].value))
    else LastNonBlank(writes[..|writes| - 1])
  }

  /** Last write wins: after any sequence of writes the registry holds the
      trimmed last non-blank id, or its old value if every write was blank. */
  lemma {:induction false} LastWriteWins(registry: Registry, writes: seq<Option<string>>)
    ensures LastNonBlank(writes).Some? ==> RememberAll(registry, writes) == LastNonBlank(writes)
    ensures LastNonBlank(writes).None? ==> RememberAll(registry, writes) == registry
    decreases |writes|
  {
    if writes != [] {
      var last := writes[|writes| - 1];
      var init := writes[..|writes| - 1];
      RememberAllSnoc(registry, init, last);
      assert init + [last] == writes;
      LastWriteWins(registry, init);
    }
  }

  lemma {:induction false} RememberAllSnoc(registry: Registry, writes: seq<Option<string>>, last: Option<string>)
    ensures RememberAll(registry, writes + [last]) == RememberCourseChannelId(RememberAll(registry, writes), last)
    decreases |writes|
  {
    if writes == [] {
      assert [last][1..] == [];
    } else {
      assert (writes + [last])[1..] == writes[1..] + [last];
      RememberAllSnoc(RememberCourseChannelId(registry, writes[0]), writes[1..], last);
    }
  }

  // ---- TelegramChannelSubscriptionService ----------------------------------

  /** A chat member as Telegram reports it; the status may be missing. */
  datatype ChatMember = ChatMember(status: Option<string>)

  /** The decoded getChatMember reply body. */
  datatype ChatMemberEnvelope = ChatMemberEnvelope(ok: Option<bool>, result: Option<ChatMember>, description: Option<string>)

  /** The outcome of the HTTP exchange: the client threw (network error,
      non-2xx status), or it decoded a body, which may be empty. */
  datatype ChatMemberReply = TransportFailure | Body(envelope: Option<ChatMemberEnvelope>)

  /** getChatMemberStatus: Failure where the client throws (a blank bot
      token, a failed exchange, an empty, not-ok or result-less reply). */
  function GetChatMemberStatus(botToken: Option<string>, reply: ChatMemberReply): (r: Result<Option<string>, string>)
    ensures r.Success? <==> HasText(botToken) && reply.Body? && reply.envelope.Some?
                            && reply.envelope.value.ok == Some(true) && reply.envelope.value.result.Some?
    ensures r.Success? ==> r.value == reply.envelope.value.result.value.status
  {
    if !HasText(botToken) then Failure("tajwid.telegram.bot-token is empty")
    else match reply
      case TransportFailure => Failure("Telegram getChatMember failed")
      case Body(envelope) =>
        if envelope.None? || envelope.value.ok != Some(true) || envelope.value.result.None? then
          Failure("Telegram getChatMember failed")
        else Success(envelope.value.result.value.status)
  }

  const SUBSCRIBED_STATUSES: set<string> := {"member", "administrator", "creator"}

  /** The Telegram side the checks depend on: the bot token and, per chat
      id and user id, the reply getChatMember would get. */
  datatype TelegramApi = TelegramApi(botToken: Option<string>, getChatMember: (string, int) -> ChatMemberReply)

  /** checkChannelMembership: ERROR without a chat id or when the call
      throws (a null status throws too, because the immutable status set
      rejects null); SUBSCRIBED exactly for member, administrator and
      creator; NOT_SUBSCRIBED for any other status. */
  function CheckChannelMembership(chatId: Option<string>, userId: int, api: TelegramApi): (r: SubscriptionCheckResult)
    ensures !HasText(chatId) ==> r == CheckError
    ensures r == Subscribed <==>
      HasText(chatId)
      && var s := GetChatMemberStatus(api.botToken, api.getChatMember(chatId.value, userId));
         s.Success? && s.value.Some? && s.value.value in SUBSCRIBED_STATUSES
    ensures r == NotSubscribed <==>
      HasText(chatId)
      && var s := GetChatMemberStatus(api.botToken, api.getChatMember(chatId.value, userId));
         s.Success? && s.value.Some? && s.value.value !in SUBSCRIBED_STATUSES
  {
    if !HasText(chatId) then CheckError
    else match GetChatMemberStatus(api.botToken, api.getChatMember(chatId.value, userId))
      case Failure(_) => CheckError
      case Success(None) => CheckError
      case Success(Some(status)) => if status in SUBSCRIBED_STATUSES then Subscribed else NotSubscribed
  }

  /** The configured channel ids (tajwid.telegram.*). */
  datatype ChannelIds = ChannelIds(schoolChannelId: Option<string>, courseChannelId: Option<string>)

  function TelegramCheckSchool(ids: ChannelIds, userId: int, api: TelegramApi): (r: SubscriptionCheckResult)
    ensures r == CheckChannelMembership(ids.schoolChannelId, userId, api)
  {
    CheckChannelMembership(ids.schoolChannelId, userId, api)
  }

  /** The course check asks about the configured course channel when one is
      configured, and otherwise about the detected one (ERROR if none). */
  function TelegramCheckCourse(ids: ChannelIds, registry: Registry, userId: int, api: TelegramApi): (r: SubscriptionCheckResult)
    ensures HasText(ids.courseChannelId) ==> r == CheckChannelMembership(ids.courseChannelId, userId, api)
    ensures !HasText(ids.courseChannelId) ==> r == CheckChannelMembership(registry, userId, api)
    ensures !HasText(ids.courseChannelId) && registry.None? ==> r == CheckError
  {
    if HasText(ids.courseChannelId) then CheckChannelMembership(ids.courseChannelId, userId, api)
    else CheckChannelMembership(registry, userId, api)
  }

  function TelegramOracle(ids: ChannelIds, registry: Registry, api: TelegramApi): Oracle {
    Oracle(u => TelegramCheckSchool(ids, u, api), u => TelegramCheckCourse(ids, registry, u, api))
  }
}
