/** The onboarding flow engine (BotFlowService.handleUpdate and the
    handlers behind it) as a pure function from the store, one update, the
    subscription oracle's answers, the clock and the configuration to the
    new store and the messages to send. */
module FlowEngine {
  import opened Wrappers
  import opened Domain
  import opened Persistence
  import opened Messages
  import opened FlowInput
  import opened JavaText
  import opened Decimal
  import Ledger
  import Subscription

  const FLOW1_INTRO_CONTINUE := "FLOW1_INTRO_CONTINUE"
  const FLOW1_SCHOOL_RECHECK := "FLOW1_SCHOOL_RECHECK"
  const FLOW1_CONSENT_CONTINUE := "FLOW1_CONSENT_CONTINUE"
  const FLOW1_COURSE_RECHECK := "FLOW1_COURSE_RECHECK"
  const FLOW1_LEVEL_PREFIX := "FLOW1_LEVEL:"
  const FLOW1_HAS_CHILDREN_YES := "FLOW1_HAS_CHILDREN:YES"
  const FLOW1_HAS_CHILDREN_NO := "FLOW1_HAS_CHILDREN:NO"
  const FLOW1_CHILDREN_STUDY_YES := "FLOW1_CHILDREN_STUDY:YES"
  const FLOW1_CHILDREN_STUDY_NO := "FLOW1_CHILDREN_STUDY:NO"
  const FLOW2_TERMS := "FLOW2_TERMS"
  const FLOW2_SHOW_LINK := "FLOW2_SHOW_LINK"
  const FLOW3_SCHOOL_RECHECK := "FLOW3_SCHOOL_RECHECK"
  const FLOW3_CONSENT_CONTINUE := "FLOW3_CONSENT_CONTINUE"
  const FLOW4_LEVEL_PREFIX := "FLOW4_LEVEL:"
  const FLOW4_COURSE_CLICK_CONFIRMED := "FLOW4_COURSE_CLICK_CONFIRMED"
  const FLOW4_HAS_CHILDREN_YES := "FLOW4_HAS_CHILDREN:YES"
  const FLOW4_HAS_CHILDREN_NO := "FLOW4_HAS_CHILDREN:NO"
  const FLOW4_CHILDREN_STUDY_YES := "FLOW4_CHILDREN_STUDY:YES"
  const FLOW4_CHILDREN_STUDY_NO := "FLOW4_CHILDREN_STUDY:NO"

  const TAG_CLICKED_SUBSCRIBED_BUTTON := "Нажал на кнопку подписался"
  const TAG_SUBSCRIBED_VIA_BOT := "Подписка с бота"
  const TAG_REFERRER_GOT_LINK := "Рефер получил ссылку"
  const TAG_COURSE_CHANNEL_CONFIRMED := "Подписка на канал курса подтверждена"

  const REFERRAL_LINK_MAX_LENGTH := 512
  const REFERRAL_ENTRY_SOURCE := "referral_link"
  /** The retry interval, in seconds, used when none (or a non-positive one) is configured. */
  const DEFAULT_RETRY_DELAY := 30

  /** The trigger sources the course confirmation records in the ledger. */
  const SOURCE_MEMBERSHIP_UPDATE := "course_channel_membership_update"
  const SOURCE_COURSE_LINK_CLICK := "flow4_course_link_click"
  const SOURCE_ZERO_DELAY := "course_channel_check_before_flow2_zero_delay"
  const SOURCE_SCHEDULED := "course_channel_check_before_flow2_scheduled"
  const SOURCE_PERIODIC_RECHECK := "course_channel_periodic_recheck"

  /** The configuration the engine reads. Durations are whole seconds and
      may be null or negative, as in the properties they come from.
      adminRecipients stands for the resolved registration-notification
      recipients (empty when notifications are off). */
  datatype Config = Config(
    botUsername: Option<string>,
    schoolChannelUrl: Option<string>,
    courseChannelUrl: Option<string>,
    flow1ToFlow2Delay: Option<int>,
    automationTickDelay: Option<int>,
    adminRecipients: Recipients)

  /** The resolved notification recipients: BotFlowService collects them
      into a HashSet, so no admin id occurs twice. The sequence order stands
      for the set's iteration order. */
  type Recipients = s: seq<int> | forall i, j :: 0 <= i < j < |s| ==> s[i] != s[j]

  /** Everything outside the store one step depends on: the clock, the
      subscription oracle's answers, the event id a ledger call for a given
      invitee draws, and the configuration. */
  datatype Env = Env(now: Instant, oracle: Subscription.Oracle, eventIds: int -> EventId, cfg: Config)

  /** BotContactPayload. */
  datatype Contact = Contact(userId: Option<int>, phoneNumber: Option<string>)

  /** BotUpdateRequest. */
  datatype Request = Request(
    userId: int,
    firstName: Option<string>,
    username: Option<string>,
    text: Option<string>,
    callbackData: Option<string>,
    contact: Option<Contact>)

  /** The result of one engine entry point: the new store and the messages
      of its BotUpdateResult, in order. */
  datatype Outcome = Outcome(store: Store, messages: seq<BotMessage>)

  /** A handler's state while it runs: the sender's context (saved at the
      end of the update), the store, and the messages so far. */
  datatype Turn = Turn(ctx: FlowContext, st: Store, out: seq<BotMessage>)

  /** Store and messages of a step with no context in hand. */
  datatype Effect = Effect(st: Store, out: seq<BotMessage>)

  /** The two registration tracks whose handlers are shared: FLOW1 (normal
      registration) and FLOW4 (registration of an invited user). */
  datatype Track = Track1 | Track4 {
    function NameStep(): FlowStep { if this == Track1 then Flow1WaitName else Flow4WaitName }
    function AgeStep(): FlowStep { if this == Track1 then Flow1WaitAge else Flow4WaitAge }
    function HasChildrenStep(): FlowStep { if this == Track1 then Flow1WaitHasChildren else Flow4WaitHasChildren }
    function ChildrenCountStep(): FlowStep { if this == Track1 then Flow1WaitChildrenCount else Flow4WaitChildrenCount }
    function ChildAgeStep(): FlowStep { if this == Track1 then Flow1WaitChildAge else Flow4WaitChildAge }
    function StudyStep(): FlowStep { if this == Track1 then Flow1WaitChildrenQuranStudy else Flow4WaitChildrenQuranStudy }
    function PhoneStep(): FlowStep { if this == Track1 then Flow1WaitPhone else Flow4WaitPhone }
    function LevelStep(): FlowStep { if this == Track1 then Flow1WaitReadingLevel else Flow4WaitReadingLevel }
    function AnnouncementStep(): FlowStep {
      if this == Track1 then Flow1WaitReferralProgramAnnouncement else Flow4WaitReferralProgramAnnouncement
    }
    function LevelPrefix(): string { if this == Track1 then FLOW1_LEVEL_PREFIX else FLOW4_LEVEL_PREFIX }
    function HasChildrenYes(): string { if this == Track1 then FLOW1_HAS_CHILDREN_YES else FLOW4_HAS_CHILDREN_YES }
    function HasChildrenNo(): string { if this == Track1 then FLOW1_HAS_CHILDREN_NO else FLOW4_HAS_CHILDREN_NO }
    function StudyYes(): string { if this == Track1 then FLOW1_CHILDREN_STUDY_YES else FLOW4_CHILDREN_STUDY_YES }
    function StudyNo(): string { if this == Track1 then FLOW1_CHILDREN_STUDY_NO else FLOW4_CHILDREN_STUDY_NO }
  }

  // ---- Contexts ------------------------------------------------------------

  /** createDefaultContext. */
  function DefaultContext(userId: int, firstName: Option<string>): (c: FlowContext)
    ensures c.userId == userId && c.telegramFirstName == firstName
    ensures c.currentStep == Some(Idle) && c.flowType == Some(Normal) && c.referrerUserId == 0
  {
    NewContext(userId).(telegramFirstName := firstName)
  }

  /** findByUserId(...).orElseGet(createDefaultContext). */
  function LoadContext(st: Store, userId: int, firstName: Option<string>): (c: FlowContext)
    ensures userId in st.contexts ==> c == st.contexts[userId]
    ensures userId !in st.contexts ==> c == DefaultContext(userId, firstName)
  {
    if userId in st.contexts then st.contexts[userId] else DefaultContext(userId, firstName)
  }

  /** The row a save leaves behind: a new row is stamped by its creation
      hook, an existing row is replaced as it is. The same stamps land on
      the entity in hand, so a second save keeps them. */
  function Persisted(st: Store, c: FlowContext, now: Instant): (r: FlowContext)
    ensures c.userId in st.contexts ==> r == c
    ensures c.userId !in st.contexts ==> r == ContextOnCreate(c, now)
    ensures r.userId == c.userId
  {
    if c.userId in st.contexts then c else ContextOnCreate(c, now)
  }

  /** flowContextRepository.save, keyed by the context's user id. */
  function SaveContext(st: Store, c: FlowContext, now: Instant): (r: Store)
    ensures r.contexts == st.contexts[c.userId := Persisted(st, c, now)]
    ensures r.users == st.users && r.usages == st.usages && r.tags == st.tags
    ensures r.contexts.Keys == st.contexts.Keys + {c.userId}
    ensures r.contexts[c.userId] == Persisted(st, c, now)
    ensures forall k :: k in st.contexts && k != c.userId ==> r.contexts[k] == st.contexts[k]
    ensures Keyed(st) ==> Keyed(r)
  {
    st.(contexts := st.contexts[c.userId := Persisted(st, c, now)])
  }

  /** resetContext: every registration answer cleared, the given flow type,
      step IDLE; only the username and the timestamps survive. */
  function Reset(c: FlowContext, userId: int, firstName: Option<string>, flowType: FlowType): (r: FlowContext)
    ensures r == DefaultContext(userId, firstName).(flowType := Some(flowType), telegramUsername := c.telegramUsername,
                                                    createdAt := c.createdAt, updatedAt := c.updatedAt)
  {
    c.(userId := userId, telegramFirstName := firstName, flowType := Some(flowType), currentStep := Some(Idle),
       userName := None, age := None, hasChildren := None, childrenCount := None, childrenAges := None,
       childrenStudyQuran := None, childrenAgeIndex := None, phone := None, readingLevel := None,
       consentGiven := false, schoolChannelSubscribed := false, referrerUserId := 0,
       referralEntrySource := None, referralEntryAt := None, tempTags := None,
       referralAnnouncementDueAt := None, referralAnnouncementSent := false)
  }

  /** setIdleContext: IDLE, NORMAL, no referrer, no pending announcement;
      every other field is kept. */
  function SetIdle(c: FlowContext): (r: FlowContext)
    ensures r.currentStep == Some(Idle) && r.flowType == Some(Normal) && r.referrerUserId == 0
    ensures r.referralAnnouncementDueAt.None? && !r.referralAnnouncementSent
    ensures r.(currentStep := c.currentStep, flowType := c.flowType, referrerUserId := c.referrerUserId,
               referralAnnouncementDueAt := c.referralAnnouncementDueAt,
               referralAnnouncementSent := c.referralAnnouncementSent) == c
  {
    c.(currentStep := Some(Idle), flowType := Some(Normal), referrerUserId := 0,
       referralAnnouncementDueAt := None, referralAnnouncementSent := false)
  }

  /** A tag the engine adds: as parseTags would yield it, and not blank. */
  predicate IsEngineTag(tag: string) {
    IsParsedTag(tag) && !IsBlank(tag)
  }

  /** addTempTag on a context: the parsed tag list gains the tag; no other
      field changes. */
  function WithTempTag(c: FlowContext, tag: string): (r: FlowContext)
    requires IsEngineTag(tag)
    ensures ParseTags(r.tempTags) == AddIfAbsent(ParseTags(c.tempTags), tag)
    ensures r.(tempTags := c.tempTags) == c
  {
    TempTagsAccumulate(c.tempTags, tag);
    c.(tempTags := Some(AddTempTag(c.tempTags, tag)))
  }

  /** The tag constants are engine tags. */
  lemma ClickedTagClean() ensures IsEngineTag(TAG_CLICKED_SUBSCRIBED_BUTTON) { EdgesClean(TAG_CLICKED_SUBSCRIBED_BUTTON); }
  lemma SubscribedTagClean() ensures IsEngineTag(TAG_SUBSCRIBED_VIA_BOT) { EdgesClean(TAG_SUBSCRIBED_VIA_BOT); }

  /** Every level label is an engine tag. */
  lemma LabelsClean(level: ReadingLevel)
    ensures IsEngineTag(level.Label())
  {
    EdgesClean(level.Label());
  }

  /** A comma-free string whose first and last characters lie above U+0020
      and are not whitespace is an engine tag. */
  lemma EdgesClean(s: string)
    requires s != [] && ' ' < s[0] && ' ' < s[|s| - 1] && !IsWhitespace(s[0]) && ',' !in s
    ensures IsEngineTag(s)
  {
  }

  /** What every update handler may do: the context keeps its user,
      earlier messages stay in place, user rows and tags are only added,
      other users' contexts are untouched, and the store stays keyed. */
  predicate HandlerFrame(t: Turn, r: Turn, uid: int) {
    |r.out| >= |t.out| && r.out[..|t.out|] == t.out
    && t.st.users.Keys <= r.st.users.Keys && t.st.tags.Keys <= r.st.tags.Keys
    && (forall k :: k in t.st.contexts && k != uid ==> k in r.st.contexts && r.st.contexts[k] == t.st.contexts[k])
    && r.st.contexts.Keys <= t.st.contexts.Keys + {uid}
    && (t.ctx.userId == uid ==> r.ctx.userId == uid && (Keyed(t.st) ==> Keyed(r.st)))
  }

  /** Two handler steps in a row are one handler step. */
  lemma FrameTransitive(t: Turn, m: Turn, r: Turn, uid: int)
    requires HandlerFrame(t, m, uid) && HandlerFrame(m, r, uid)
    ensures HandlerFrame(t, r, uid)
  {
    assert r.out[..|t.out|] == r.out[..|m.out|][..|t.out|];
  }

  /** A step that keeps the store and the context's user and only appends
      messages is a handler step. */
  lemma StoreKeptFrame(t: Turn, r: Turn, uid: int)
    requires r.st == t.st && |r.out| >= |t.out| && r.out[..|t.out|] == t.out && r.ctx.userId == t.ctx.userId
    ensures HandlerFrame(t, r, uid)
  {
  }

  // ---- Messages ------------------------------------------------------------

  function Say(t: Turn, to: int, text: Text, buttons: seq<Button>): (r: Turn)
    ensures r.ctx == t.ctx && r.st == t.st && r.out == t.out + [BotMessage(to, text, buttons)]
  {
    t.(out := t.out + [BotMessage(to, text, buttons)])
  }

  /** One message sent and the context replaced. */
  function Reply(t: Turn, c: FlowContext, m: BotMessage): (r: Turn)
    ensures r.ctx == c && r.st == t.st
    ensures |r.out| == |t.out| + 1 && r.out[..|t.out|] == t.out && r.out[|t.out|] == m
  {
    var r := Turn(c, t.st, t.out + [m]);
    assert r.out[..|t.out|] == t.out;
    r
  }

  function ConsentMessage(userId: int, callback: string): BotMessage {
    BotMessage(userId, ConsentRequest, [CallbackButton("Продолжить", callback)])
  }

  function PhoneRequest(userId: int): BotMessage {
    BotMessage(userId, AskPhone, [RequestContactButton("Отправить номер")])
  }

  function YesNoButtons(yesCallback: string, noCallback: string): seq<Button> {
    [CallbackButton("Да", yesCallback), CallbackButton("Нет", noCallback)]
  }

  function ReferralProgramIntroMessage(userId: int): BotMessage {
    BotMessage(userId, ReferralProgramIntro, [CallbackButton("Условия", FLOW2_TERMS)])
  }

  /** askReadingLevel's keyboard: one button per reading level, in
      declaration order, captioned with the label, whose callback is the
      prefix followed by the level's constant name. */
  function LevelButtons(prefix: string): (b: seq<Button>)
    ensures |b| == |READING_LEVELS|
    ensures forall i :: 0 <= i < |b| ==> b[i] == CallbackButton(READING_LEVELS[i].Label(), prefix + READING_LEVELS[i].Name())
  {
    seq(|READING_LEVELS|, i requires 0 <= i < |READING_LEVELS| =>
      CallbackButton(READING_LEVELS[i].Label(), prefix + READING_LEVELS[i].Name()))
  }

  /** The registration notice, one per configured recipient, in order. */
  function AdminNotices(recipients: Recipients, userId: int): (r: seq<BotMessage>)
    ensures |r| == |recipients|
    ensures forall i :: 0 <= i < |r| ==> r[i] == BotMessage(recipients[i], RegistrationNotice(userId), [])
    ensures forall i, j :: 0 <= i < j < |r| ==> r[i].recipient != r[j].recipient
  {
    seq(|recipients|, i requires 0 <= i < |recipients| => BotMessage(recipients[i], RegistrationNotice(userId), []))
  }

  // ---- Event classification ------------------------------------------------

  /** The four kinds of update, and the empty update. */
  datatype Event =
    | StartCommand(command: string)
    | CallbackPressed(data: string)
    | ContactShared(contact: Contact)
    | PlainText(text: string)
    | NoInput

  /** handleUpdate's dispatch order: a trimmed text beginning with "/start"
      wins over a callback, a callback over a contact, a contact over other
      text; an update with none of them is empty. */
  function Classify(req: Request): (e: Event)
    ensures e.StartCommand? <==> Normalize(req.text).Some? && StartsWith(Normalize(req.text).value, "/start")
    ensures e.CallbackPressed? <==> !e.StartCommand? && Normalize(req.callbackData).Some?
    ensures e.ContactShared? <==> !e.StartCommand? && !e.CallbackPressed? && req.contact.Some?
    ensures e.PlainText? <==> !e.StartCommand? && !e.CallbackPressed? && !e.ContactShared? && Normalize(req.text).Some?
    ensures e.StartCommand? ==> e.command == Normalize(req.text).value
    ensures e.CallbackPressed? ==> e.data == Normalize(req.callbackData).value
    ensures e.ContactShared? ==> e.contact == req.contact.value
    ensures e.PlainText? ==> e.text == Normalize(req.text).value
  {
    var text := Normalize(req.text);
    var callback := Normalize(req.callbackData);
    if text.Some? && StartsWith(text.value, "/start") then StartCommand(text.value)
    else if callback.Some? then CallbackPressed(callback.value)
    else if req.contact.Some? then ContactShared(req.contact.value)
    else if text.Some? then PlainText(text.value)
    else NoInput
  }

  // ---- The /start command --------------------------------------------------

  /** startNormalFlow: reset to NORMAL and greet; a school-channel
      subscriber is offered "continue", anybody else the channel and a
      recheck button. */
  function StartNormalFlow(t: Turn, req: Request, env: Env): (r: Turn)
    ensures HandlerFrame(t, r, req.userId)
    ensures r.st == t.st && |r.out| == |t.out| + 1 && r.out[..|t.out|] == t.out
    ensures r.out[|t.out|].recipient == req.userId
    ensures r.ctx == Reset(t.ctx, req.userId, req.firstName, Normal).(currentStep := r.ctx.currentStep)
    ensures env.oracle.school(req.userId) == SubscriptionCheckResult.Subscribed <==>
      r.ctx.currentStep == Some(Flow1WaitIntroContinue)
    ensures env.oracle.school(req.userId) == SubscriptionCheckResult.Subscribed <==>
      r.out[|t.out|].text == WelcomeSubscribed
    ensures env.oracle.school(req.userId) != SubscriptionCheckResult.Subscribed ==>
      r.ctx.currentStep == Some(Flow1WaitSchoolSubscriptionRecheck) && r.out[|t.out|].text == WelcomeSubscribeFirst
  {
    var uid := req.userId;
    var c := Reset(t.ctx, uid, req.firstName, Normal);
    if env.oracle.school(uid) == SubscriptionCheckResult.Subscribed then
      Turn(c.(currentStep := Some(Flow1WaitIntroContinue)), t.st,
           t.out + [BotMessage(uid, WelcomeSubscribed, [CallbackButton("Продолжить", FLOW1_INTRO_CONTINUE)])])
    else
      Turn(c.(currentStep := Some(Flow1WaitSchoolSubscriptionRecheck)), t.st,
           t.out + [BotMessage(uid, WelcomeSubscribeFirst, [UrlButton("Telegram-канал школы", env.cfg.schoolChannelUrl),
                                                            CallbackButton("Подписался", FLOW1_SCHOOL_RECHECK)])])
  }

  /** The condition that stops startReferralFlow: the user's profile is
      PENDING or COUNTED, or some ledger row names the user as invitee. */
  predicate AlreadyReferred(st: Store, userId: int) {
    (userId in st.users && st.users[userId].referralStatus in {Some(Pending), Some(Counted)})
    || HasInviteeRow(st.usages, userId)
  }

  /** startReferralFlow. */
  function StartReferralFlow(t: Turn, req: Request, referrerId: int, env: Env): (r: Turn)
    ensures HandlerFrame(t, r, req.userId)
    ensures r.st == t.st && |r.out| == |t.out| + 1 && r.out[..|t.out|] == t.out
    ensures r.out[|t.out|].recipient == req.userId
    ensures referrerId == req.userId || referrerId !in t.st.users ==>
      r.ctx == SetIdle(Reset(t.ctx, req.userId, req.firstName, Referral))
      && r.out[|t.out|].text == ReferralLinkUnusable
    ensures referrerId != req.userId && referrerId in t.st.users && AlreadyReferred(t.st, req.userId) ==>
      r.ctx == SetIdle(Reset(t.ctx, req.userId, req.firstName, Referral))
      && r.out[|t.out|].text == ReferralLinkUsed
    ensures referrerId != req.userId && referrerId in t.st.users && !AlreadyReferred(t.st, req.userId) ==>
      r.ctx == Reset(t.ctx, req.userId, req.firstName, Referral).(
                 referrerUserId := referrerId, referralEntrySource := Some(REFERRAL_ENTRY_SOURCE),
                 referralEntryAt := Some(env.now), currentStep := Some(Flow3WaitSchoolSubscriptionRecheck))
      && r.out[|t.out|].text == ReferralWelcome
  {
    var uid := req.userId;
    var c := Reset(t.ctx, uid, req.firstName, Referral);
    if referrerId == uid || referrerId !in t.st.users then
      Turn(SetIdle(c), t.st, t.out + [BotMessage(uid, ReferralLinkUnusable, [])])
    else if AlreadyReferred(t.st, uid) then
      Turn(SetIdle(c), t.st, t.out + [BotMessage(uid, ReferralLinkUsed, [])])
    else
      Turn(c.(referrerUserId := referrerId, referralEntrySource := Some(REFERRAL_ENTRY_SOURCE),
              referralEntryAt := Some(env.now), currentStep := Some(Flow3WaitSchoolSubscriptionRecheck)),
           t.st,
           t.out + [BotMessage(uid, ReferralWelcome, [CallbackButton("Подписался", FLOW3_SCHOOL_RECHECK),
                                                      UrlButton("Telegram канал", env.cfg.schoolChannelUrl)])])
  }

  /** handleStartCommand: the (trimmed) command split on whitespace; a
      lone command starts the normal track, and a second word is the
      referrer's id, the link being unusable when that word is not a long. */
  function HandleStartCommand(t: Turn, req: Request, command: string, env: Env): (r: Turn)
    ensures HandlerFrame(t, r, req.userId)
    ensures r.st == t.st && |r.out| == |t.out| + 1 && r.out[..|t.out|] == t.out
    ensures |Words(command)| < 2 ==> r == StartNormalFlow(t, req, env)
    ensures |Words(command)| >= 2 && ParseLong(Words(command)[1]).None? ==>
      r.ctx == SetIdle(t.ctx) && r.out[|t.out|] == BotMessage(req.userId, ReferralLinkUnusable, [])
    ensures |Words(command)| >= 2 && ParseLong(Words(command)[1]).Some? ==>
      r == StartReferralFlow(t, req, ParseLong(Words(command)[1]).value, env)
  {
    var parts := Words(command);
    if |parts| < 2 then StartNormalFlow(t, req, env)
    else match ParseLong(parts[1])
      case None => Turn(SetIdle(t.ctx), t.st, t.out + [BotMessage(req.userId, ReferralLinkUnusable, [])])
      case Some(referrerId) => StartReferralFlow(t, req, referrerId, env)
  }

  // ---- Course confirmation -------------------------------------------------

  /** The course flag set on a stored user (nothing for an unknown one). */
  function MarkCourseSubscribed(st: Store, userId: int): (r: Store)
    ensures r.contexts == st.contexts && r.usages == st.usages && r.tags == st.tags
    ensures r.users.Keys == st.users.Keys
    ensures userId in st.users ==> r.users[userId] == st.users[userId].(courseChannelSubscribed := true)
    ensures forall k :: k in st.users && k != userId ==> r.users[k] == st.users[k]
  {
    if userId in st.users then st.(users := st.users[userId := st.users[userId].(courseChannelSubscribed := true)]) else st
  }

  /** startFlow2 on a context: the referral-programme announcement step. */
  function StartFlow2(c: FlowContext): (r: FlowContext)
    ensures r.currentStep == Some(Flow2WaitTerms) && r.(currentStep := c.currentStep) == c
  {
    c.(currentStep := Some(Flow2WaitTerms))
  }

  /** The two steps in which a context waits for the course subscription. */
  predicate AwaitsCourse(c: FlowContext) {
    c.currentStep in {Some(Flow1WaitCourseSubscriptionRecheck), Some(Flow4WaitCourseLinkConfirm)}
  }

  /** The ledger event the course confirmation builds for an invitee. With
      a non-blank source it passes the ledger's validation. */
  function CreditPayload(referrerId: int, inviteeId: int, source: string, env: Env): (p: Ledger.ReferralEventPayload)
    ensures p.referrerUserId == Some(referrerId) && p.inviteeUserId == Some(inviteeId)
    ensures p.idempotencyKey == Some(IdempotencyKey(referrerId, inviteeId))
    ensures p.triggerSource == Some(source) && p.triggeredAt == Some(env.now)
    ensures p.referralLink == Some(BuildReferralLink(env.cfg.botUsername, referrerId))
    ensures !IsBlank(source) <==> Ledger.IsPayloadValid(Some(p))
  {
    var key := IdempotencyKey(referrerId, inviteeId);
    assert key[0] == 'r';
    Ledger.ReferralEventPayload(Some(env.eventIds(inviteeId)), Some(referrerId), Some(inviteeId), Some(key),
                                Some(source), Some(env.now), Some(BuildReferralLink(env.cfg.botUsername, referrerId)))
  }

  /** The user-row fields course confirmation may change: the course flag,
      which it only ever sets, the referral status with its counted time,
      and (on a referrer) the points. Registration answers are never
      touched. */
  predicate SameProfile(a: User, b: User) {
    a == b.(courseChannelSubscribed := a.courseChannelSubscribed, referralStatus := a.referralStatus,
            referralCountedAt := a.referralCountedAt, referralPoints := a.referralPoints)
    && (b.courseChannelSubscribed ==> a.courseChannelSubscribed)
  }

  /** The ledger part of the course confirmation, for the user row `user`
      as loaded: a PENDING invitee with a positive referrer gets an event,
      and the referrer is told about it only when it is a new credit. */
  function Credit(st: Store, uid: int, user: User, source: string, env: Env): (r: Effect)
    requires !IsBlank(source)
    requires uid in st.users && st.users[uid].referralStatus == user.referralStatus
    ensures r.st.contexts == st.contexts && r.st.tags == st.tags && r.st.users.Keys == st.users.Keys
    ensures forall k :: k in st.users ==> SameProfile(r.st.users[k], st.users[k])
    ensures forall k :: k in st.users ==> r.st.users[k].userId == st.users[k].userId
    ensures r.st.users[uid] == st.users[uid].(referralStatus := r.st.users[uid].referralStatus,
                                              referralCountedAt := r.st.users[uid].referralCountedAt)
    ensures r.st.users[uid].referralStatus == user.referralStatus || r.st.users[uid].referralStatus == Some(Counted)
    ensures user.referralStatus != Some(Pending) || user.referrerUserId <= 0 ==> r == Effect(st, [])
    ensures forall m :: m in r.out ==> m.recipient == user.referrerUserId && m.text.ReferrerCredited?
    ensures user.referralStatus == Some(Pending) && user.referrerUserId > 0 ==>
      var o := Ledger.ProcessReferralEvent(st, Some(CreditPayload(user.referrerUserId, uid, source, env)), env.now);
      r.st == o.store && (|r.out| == 1 <==> o.result.newlyCounted)
  {
    var referrerId := user.referrerUserId;
    if user.referralStatus == Some(Pending) && referrerId > 0 then
      var p := CreditPayload(referrerId, uid, source, env);
      var o := Ledger.ProcessReferralEvent(st, Some(p), env.now);
      LedgerKeepsProfiles(st, p, env.now);
      Effect(o.store, if o.result.payloadValid && o.result.newlyCounted
                      then [BotMessage(referrerId, ReferrerCredited(o.result.referralPoints), [])] else [])
    else Effect(st, [])
  }

  /** The ledger changes only the referral fields of a profile: the
      referrer's points, the invitee's status and counted time. */
  lemma LedgerKeepsProfiles(st: Store, p: Ledger.ReferralEventPayload, now: Instant)
    requires p.inviteeUserId.Some? && p.inviteeUserId.value in st.users
    ensures var o := Ledger.ProcessReferralEvent(st, Some(p), now);
      var i := p.inviteeUserId.value;
      (forall k :: k in st.users ==> SameProfile(o.store.users[k], st.users[k]) && o.store.users[k].userId == st.users[k].userId)
      && o.store.users[i] == st.users[i].(referralStatus := o.store.users[i].referralStatus,
                                          referralCountedAt := o.store.users[i].referralCountedAt)
      && (o.store.users[i].referralStatus == st.users[i].referralStatus || o.store.users[i].referralStatus == Some(Counted))
  {
    var o := Ledger.ProcessReferralEvent(st, Some(p), now);
    forall k | k in st.users
      ensures SameProfile(o.store.users[k], st.users[k])
    {
      if o.store.users[k] != st.users[k] {
        if k == p.inviteeUserId.value {
        } else {
          assert k == p.referrerUserId.value;
        }
      }
    }
  }

  /** confirmCourseSubscriptionAndProcessReferral without a context: for a
      stored user the course flag is set, the confirmation tag assigned and
      the ledger run for a PENDING invitee. An unknown user changes
      nothing. */
  function ConfirmCourse(st: Store, uid: int, source: string, env: Env): (r: Effect)
    requires !IsBlank(source)
    ensures uid !in st.users ==> r == Effect(st, [])
    ensures r.st.contexts == st.contexts
    ensures r.st.users.Keys == st.users.Keys && st.tags.Keys <= r.st.tags.Keys
    ensures uid in st.users ==> r.st.users[uid].courseChannelSubscribed && HasTag(r.st, uid, TAG_COURSE_CHANNEL_CONFIRMED)
    ensures forall k :: k in st.users ==> SameProfile(r.st.users[k], st.users[k])
    ensures uid in st.users ==> r.st.users[uid].referralPoints == st.users[uid].referralPoints
    ensures uid in st.users ==>
      r.st.users[uid].referralStatus == st.users[uid].referralStatus || r.st.users[uid].referralStatus == Some(Counted)
    ensures uid in st.users && st.users[uid].referralStatus != Some(Pending) ==>
      r.st.users[uid].referralStatus == st.users[uid].referralStatus
    ensures forall m :: m in r.out ==> m.text.ReferrerCredited?
    ensures Keyed(st) ==> Keyed(r.st)
  {
    if uid !in st.users then Effect(st, []) else ConfirmUser(st, uid, source, env)
  }

  /** The same confirmation with a context in hand: afterwards the context
      of a stored user that waits for the course moves to the
      referral-programme announcement, which is sent, and is saved; any
      other context is handed back untouched and not saved. */
  function ConfirmCourseWith(st: Store, c: FlowContext, source: string, env: Env): (r: Turn)
    requires !IsBlank(source)
    ensures var e := ConfirmCourse(st, c.userId, source, env);
      r.st.users == e.st.users && r.st.tags == e.st.tags && r.st.usages == e.st.usages
    ensures c.userId in st.users && AwaitsCourse(c) ==>
      r.ctx == Persisted(st, StartFlow2(c), env.now) && r.st.contexts == st.contexts[c.userId := r.ctx]
      && r.out == ConfirmCourse(st, c.userId, source, env).out + [ReferralProgramIntroMessage(c.userId)]
    ensures !(c.userId in st.users && AwaitsCourse(c)) ==>
      r.ctx == c && r.st.contexts == st.contexts && r.out == ConfirmCourse(st, c.userId, source, env).out
    ensures r.ctx.userId == c.userId
    ensures Keyed(st) ==> Keyed(r.st)
  {
    var e := ConfirmCourse(st, c.userId, source, env);
    if c.userId in st.users && AwaitsCourse(c) then
      Turn(Persisted(st, StartFlow2(c), env.now), SaveContext(e.st, StartFlow2(c), env.now),
           e.out + [ReferralProgramIntroMessage(c.userId)])
    else Turn(c, e.st, e.out)
  }

  /** The user-row part of the course confirmation: the course flag set,
      the confirmation tag assigned, and the ledger run for a PENDING
      invitee. Contexts are not touched. */
  function ConfirmUser(st: Store, uid: int, source: string, env: Env): (r: Effect)
    requires uid in st.users && !IsBlank(source)
    ensures r.st.contexts == st.contexts
    ensures r.st.users.Keys == st.users.Keys && st.tags.Keys <= r.st.tags.Keys
    ensures r.st.users[uid].courseChannelSubscribed && HasTag(r.st, uid, TAG_COURSE_CHANNEL_CONFIRMED)
    ensures forall k :: k in st.users ==> SameProfile(r.st.users[k], st.users[k])
    ensures r.st.users[uid].referralPoints == st.users[uid].referralPoints
    ensures r.st.users[uid].referralStatus == st.users[uid].referralStatus || r.st.users[uid].referralStatus == Some(Counted)
    ensures st.users[uid].referralStatus != Some(Pending) ==> r.st.users[uid].referralStatus == st.users[uid].referralStatus
    ensures forall m :: m in r.out ==> m.text.ReferrerCredited?
    ensures Keyed(st) ==> Keyed(r.st)
  {
    var user := st.users[uid];
    var st1 := MarkConfirmed(st, uid, env.now);
    var credit := Credit(st1, uid, user, source, env);
    assert HasTag(credit.st, uid, TAG_COURSE_CHANNEL_CONFIRMED);
    forall k | k in st.users
      ensures SameProfile(credit.st.users[k], st.users[k])
    {
      SameProfileTransitive(credit.st.users[k], st1.users[k], st.users[k]);
    }
    credit
  }

  /** The course flag set and the confirmation tag assigned. */
  function MarkConfirmed(st: Store, uid: int, now: Instant): (r: Store)
    requires uid in st.users
    ensures r.contexts == st.contexts && r.usages == st.usages && st.tags.Keys <= r.tags.Keys
    ensures r.users == st.users[uid := st.users[uid].(courseChannelSubscribed := true)]
    ensures HasTag(r, uid, TAG_COURSE_CHANNEL_CONFIRMED)
    ensures Keyed(st) ==> Keyed(r)
  {
    AssignTag(MarkCourseSubscribed(st, uid), uid, TAG_COURSE_CHANNEL_CONFIRMED, now)
  }

  lemma SameProfileTransitive(a: User, b: User, c: User)
    requires SameProfile(a, b) && SameProfile(b, c)
    ensures SameProfile(a, c)
  {
  }

  /** The trigger sources are not blank. */
  lemma SourcesClean()
    ensures !IsBlank(SOURCE_MEMBERSHIP_UPDATE) && !IsBlank(SOURCE_COURSE_LINK_CLICK) && !IsBlank(SOURCE_ZERO_DELAY)
    ensures !IsBlank(SOURCE_SCHEDULED) && !IsBlank(SOURCE_PERIODIC_RECHECK)
  {
    assert SOURCE_MEMBERSHIP_UPDATE[0] == 'c' && SOURCE_COURSE_LINK_CLICK[0] == 'f' && SOURCE_ZERO_DELAY[0] == 'c';
    assert SOURCE_SCHEDULED[0] == 'c' && SOURCE_PERIODIC_RECHECK[0] == 'c';
  }

  // ---- Callbacks -----------------------------------------------------------

  /** onFlow1IntroContinue. */
  function OnFlow1IntroContinue(t: Turn, uid: int): (r: Turn)
    ensures HandlerFrame(t, r, uid)
    ensures t.ctx.currentStep != Some(Flow1WaitIntroContinue) ==> r == t
    ensures t.ctx.currentStep == Some(Flow1WaitIntroContinue) ==>
      r.ctx == t.ctx.(currentStep := Some(Flow1WaitConsentAccept)) && r.st == t.st
      && r.out == t.out + [ConsentMessage(uid, FLOW1_CONSENT_CONTINUE)]
  {
    if t.ctx.currentStep != Some(Flow1WaitIntroContinue) then t
    else Turn(t.ctx.(currentStep := Some(Flow1WaitConsentAccept)), t.st, t.out + [ConsentMessage(uid, FLOW1_CONSENT_CONTINUE)])
  }

  /** The school gate when the channel is subscribed: the subscription is
      recorded and tagged, and consent is asked for. */
  function GateOpen(t: Turn, uid: int, consentStep: FlowStep, consentCallback: string, tag: string): (r: Turn)
    requires IsEngineTag(tag)
    ensures r.st == t.st && r.out == t.out + [ConsentMessage(uid, consentCallback)]
    ensures ParseTags(r.ctx.tempTags) == AddIfAbsent(ParseTags(t.ctx.tempTags), tag)
    ensures r.ctx.(tempTags := t.ctx.tempTags) == t.ctx.(schoolChannelSubscribed := true, currentStep := Some(consentStep))
    ensures r.ctx.userId == t.ctx.userId && r.ctx.referrerUserId == t.ctx.referrerUserId
    ensures r.ctx.schoolChannelSubscribed && r.ctx.currentStep == Some(consentStep)
  {
    var tagged := WithTempTag(t.ctx, tag);
    Turn(tagged.(schoolChannelSubscribed := true, currentStep := Some(consentStep)), t.st,
         t.out + [ConsentMessage(uid, consentCallback)])
  }

  /** The school gate when the channel is not (or cannot be seen to be)
      subscribed: the recheck step is set and the reply is sent. */
  function GateClosed(t: Turn, recheckStep: FlowStep, reply: BotMessage): (r: Turn)
    ensures r.st == t.st && r.out == t.out + [reply]
    ensures r.ctx == t.ctx.(currentStep := Some(recheckStep))
  {
    Turn(t.ctx.(currentStep := Some(recheckStep)), t.st, t.out + [reply])
  }

  /** What the school gate leaves behind: the store is untouched and one
      reply is appended; the press is recorded as the clicked tag; the
      consent step, the subscribed flag, the subscribed tag and the consent
      request come exactly with SUBSCRIBED; otherwise the recheck step and
      the error or not-yet message. */
  ghost predicate GateOutcome(t: Turn, r: Turn, uid: int, school: SubscriptionCheckResult, recheckStep: FlowStep, consentStep: FlowStep,
                              consentCallback: string, errorText: Text, clicked: string, subscribed: string) {
    var open := school == SubscriptionCheckResult.Subscribed;
    r.st == t.st && |r.out| == |t.out| + 1 && r.out[..|t.out|] == t.out
    && r.ctx.userId == t.ctx.userId && r.ctx.referrerUserId == t.ctx.referrerUserId
    && r.ctx.currentStep == Some(if open then consentStep else recheckStep)
    && r.ctx.schoolChannelSubscribed == (open || t.ctx.schoolChannelSubscribed)
    && (forall x :: x in ParseTags(r.ctx.tempTags) <==> x in ParseTags(t.ctx.tempTags) || x == clicked || (open && x == subscribed))
    && (open ==> r.out[|t.out|] == ConsentMessage(uid, consentCallback))
    && (school == SubscriptionCheckResult.CheckError ==> r.out[|t.out|].text == errorText)
    && (school == SubscriptionCheckResult.NotSubscribed ==> r.out[|t.out|].text == SchoolNotYetSubscribed)
  }

  /** The school-channel gate shared by onFlow1SchoolRecheck and
      onFlow3SchoolRecheck: the press is recorded as the clicked tag, then
      SUBSCRIBED records the subscription, adds the subscribed tag and asks
      for consent; ERROR and NOT_SUBSCRIBED stay on the recheck step with
      different messages. The tags are parameters so that the gate is
      stated once for any pair of engine tags. */
  function SchoolGate(t: Turn, uid: int, school: SubscriptionCheckResult, recheckStep: FlowStep, consentStep: FlowStep, consentCallback: string,
                      errorText: Text, errorButtons: seq<Button>, notYetButtons: seq<Button>, clicked: string, subscribed: string): (r: Turn)
    requires IsEngineTag(clicked) && IsEngineTag(subscribed)
    ensures HandlerFrame(t, r, uid)
    ensures GateOutcome(t, r, uid, school, recheckStep, consentStep, consentCallback, errorText, clicked, subscribed)
    ensures school == SubscriptionCheckResult.CheckError ==> r.out[|t.out|].buttons == errorButtons
    ensures school == SubscriptionCheckResult.NotSubscribed ==> r.out[|t.out|].buttons == notYetButtons
  {
    var pressed := Turn(WithTempTag(t.ctx, clicked), t.st, t.out);
    var r :=
      if school == SubscriptionCheckResult.Subscribed then GateOpen(pressed, uid, consentStep, consentCallback, subscribed)
      else
        var reply := if school == SubscriptionCheckResult.CheckError then BotMessage(uid, errorText, errorButtons)
                     else BotMessage(uid, SchoolNotYetSubscribed, notYetButtons);
        GateClosed(pressed, recheckStep, reply);
    StoreKeptFrame(t, r, uid);
    r
  }

  /** onFlow1SchoolRecheck (no step guard): records the press, then the
      school gate. */
  function OnFlow1SchoolRecheck(t: Turn, uid: int, env: Env): (r: Turn)
    ensures HandlerFrame(t, r, uid)
    ensures GateOutcome(t, r, uid, env.oracle.school(uid), Flow1WaitSchoolSubscriptionRecheck, Flow1WaitConsentAccept,
                        FLOW1_CONSENT_CONTINUE, SchoolCheckFailed, TAG_CLICKED_SUBSCRIBED_BUTTON, TAG_SUBSCRIBED_VIA_BOT)
  {
    ClickedTagClean();
    SubscribedTagClean();
    var r := SchoolGate(t, uid, env.oracle.school(uid), Flow1WaitSchoolSubscriptionRecheck, Flow1WaitConsentAccept, FLOW1_CONSENT_CONTINUE,
                        SchoolCheckFailed, [CallbackButton("Проверить снова", FLOW1_SCHOOL_RECHECK)],
                        [UrlButton("Telegram-канал школы", env.cfg.schoolChannelUrl), CallbackButton("Проверить снова", FLOW1_SCHOOL_RECHECK)],
                        TAG_CLICKED_SUBSCRIBED_BUTTON, TAG_SUBSCRIBED_VIA_BOT);
    r
  }

  /** onFlow3SchoolRecheck: without a referral context only a hint;
      otherwise as onFlow1SchoolRecheck on the referral track. */
  function OnFlow3SchoolRecheck(t: Turn, uid: int, env: Env): (r: Turn)
    ensures HandlerFrame(t, r, uid)
    ensures t.ctx.flowType != Some(Referral) || t.ctx.referrerUserId <= 0 ==>
      r.ctx == t.ctx && r.st == t.st && r.out == t.out + [BotMessage(uid, ReferralContextMissing, [])]
    ensures t.ctx.flowType == Some(Referral) && t.ctx.referrerUserId > 0 ==>
      GateOutcome(t, r, uid, env.oracle.school(uid), Flow3WaitSchoolSubscriptionRecheck, Flow3WaitConsentAccept,
                  FLOW3_CONSENT_CONTINUE, SchoolCheckFailedReferral, TAG_CLICKED_SUBSCRIBED_BUTTON, TAG_SUBSCRIBED_VIA_BOT)
  {
    if t.ctx.flowType != Some(Referral) || t.ctx.referrerUserId <= 0 then Say(t, uid, ReferralContextMissing, [])
    else
      ClickedTagClean();
      SubscribedTagClean();
      var r := SchoolGate(t, uid, env.oracle.school(uid), Flow3WaitSchoolSubscriptionRecheck, Flow3WaitConsentAccept, FLOW3_CONSENT_CONTINUE,
                          SchoolCheckFailedReferral, [CallbackButton("Готово", FLOW3_SCHOOL_RECHECK)],
                          [UrlButton("Telegram канал", env.cfg.schoolChannelUrl), CallbackButton("Готово", FLOW3_SCHOOL_RECHECK)],
                          TAG_CLICKED_SUBSCRIBED_BUTTON, TAG_SUBSCRIBED_VIA_BOT);
      r
  }

  /** onFlow1ConsentContinue: consent recorded, the name asked for. */
  function OnFlow1ConsentContinue(t: Turn, req: Request): (r: Turn)
    ensures HandlerFrame(t, r, req.userId)
    ensures t.ctx.currentStep != Some(Flow1WaitConsentAccept) ==> r == t
    ensures t.ctx.currentStep == Some(Flow1WaitConsentAccept) ==>
      r.ctx == t.ctx.(consentGiven := true, telegramFirstName := req.firstName, currentStep := Some(Flow1WaitName))
      && r.st == t.st && r.out == t.out + [BotMessage(req.userId, AskName, [])]
  {
    if t.ctx.currentStep != Some(Flow1WaitConsentAccept) then t
    else Turn(t.ctx.(consentGiven := true, telegramFirstName := req.firstName, currentStep := Some(Flow1WaitName)),
              t.st, t.out + [BotMessage(req.userId, AskName, [])])
  }

  /** onFlow3ConsentContinue: consent recorded, the invited user's name
      asked for. */
  function OnFlow3ConsentContinue(t: Turn, uid: int): (r: Turn)
    ensures HandlerFrame(t, r, uid)
    ensures t.ctx.currentStep != Some(Flow3WaitConsentAccept) ==> r == t
    ensures t.ctx.currentStep == Some(Flow3WaitConsentAccept) ==>
      r.ctx == t.ctx.(consentGiven := true, currentStep := Some(Flow4WaitName))
      && r.st == t.st && r.out == t.out + [BotMessage(uid, AskName, [])]
  {
    if t.ctx.currentStep != Some(Flow3WaitConsentAccept) then t
    else Turn(t.ctx.(consentGiven := true, currentStep := Some(Flow4WaitName)), t.st, t.out + [BotMessage(uid, AskName, [])])
  }

  /** onFlow1CourseRecheck: SUBSCRIBED marks the user, tags the course
      confirmation and announces the programme; ERROR and NOT_SUBSCRIBED
      only re-prompt, with different texts. */
  function OnFlow1CourseRecheck(t: Turn, uid: int, env: Env): (r: Turn)
    ensures HandlerFrame(t, r, uid)
    ensures t.ctx.currentStep != Some(Flow1WaitCourseSubscriptionRecheck) ==> r == t
    ensures t.ctx.currentStep == Some(Flow1WaitCourseSubscriptionRecheck) ==>
      |r.out| == |t.out| + 1 && r.out[..|t.out|] == t.out
    ensures t.ctx.currentStep == Some(Flow1WaitCourseSubscriptionRecheck) && env.oracle.course(uid) == SubscriptionCheckResult.Subscribed ==>
      r.ctx == StartFlow2(t.ctx) && r.out[|t.out|] == ReferralProgramIntroMessage(uid)
      && r.st == AssignTag(MarkCourseSubscribed(t.st, uid), uid, TAG_COURSE_CHANNEL_CONFIRMED, env.now)
    ensures t.ctx.currentStep == Some(Flow1WaitCourseSubscriptionRecheck) && env.oracle.course(uid) != SubscriptionCheckResult.Subscribed ==>
      r.ctx == t.ctx && r.st == t.st
      && r.out[|t.out|].text == (if env.oracle.course(uid) == SubscriptionCheckResult.CheckError then CourseCheckFailed else CourseNotYetSubscribed)
    ensures r.st.users.Keys == t.st.users.Keys && t.st.tags.Keys <= r.st.tags.Keys && r.st.contexts == t.st.contexts
    ensures Keyed(t.st) ==> Keyed(r.st)
  {
    if t.ctx.currentStep != Some(Flow1WaitCourseSubscriptionRecheck) then t
    else match env.oracle.course(uid)
      case Subscribed =>
        var st := AssignTag(MarkCourseSubscribed(t.st, uid), uid, TAG_COURSE_CHANNEL_CONFIRMED, env.now);
        Turn(StartFlow2(t.ctx), st, t.out + [ReferralProgramIntroMessage(uid)])
      case CheckError =>
        Say(t, uid, CourseCheckFailed, [CallbackButton("Проверить подписку", FLOW1_COURSE_RECHECK)])
      case NotSubscribed =>
        Say(t, uid, CourseNotYetSubscribed, [UrlButton("Канал по курсу", env.cfg.courseChannelUrl),
                                             CallbackButton("Проверить подписку", FLOW1_COURSE_RECHECK)])
  }

  /** onFlow4CourseClickConfirmed: ERROR and NOT_SUBSCRIBED re-prompt and
      change nothing; SUBSCRIBED runs the course confirmation with the
      context in hand. */
  function OnFlow4CourseClickConfirmed(t: Turn, uid: int, env: Env): (r: Turn)
    requires t.ctx.userId == uid
    ensures t.ctx.currentStep != Some(Flow4WaitCourseLinkConfirm) ==> r == t
    ensures t.ctx.currentStep == Some(Flow4WaitCourseLinkConfirm) && env.oracle.course(uid) != SubscriptionCheckResult.Subscribed ==>
      r.ctx == t.ctx && r.st == t.st && |r.out| == |t.out| + 1 && r.out[..|t.out|] == t.out
      && r.out[|t.out|].text == (if env.oracle.course(uid) == SubscriptionCheckResult.CheckError then CourseCheckFailed else CourseNotYetSubscribed)
    ensures t.ctx.currentStep == Some(Flow4WaitCourseLinkConfirm) && env.oracle.course(uid) == SubscriptionCheckResult.Subscribed ==>
      !IsBlank(SOURCE_COURSE_LINK_CLICK) &&
      var c := ConfirmCourseWith(t.st, t.ctx, SOURCE_COURSE_LINK_CLICK, env);
      r == Turn(c.ctx, c.st, t.out + c.out)
    ensures HandlerFrame(t, r, uid)
  {
    if t.ctx.currentStep != Some(Flow4WaitCourseLinkConfirm) then t
    else match env.oracle.course(uid)
      case CheckError =>
        Say(t, uid, CourseCheckFailed, [CallbackButton("Проверить подписку", FLOW4_COURSE_CLICK_CONFIRMED)])
      case NotSubscribed =>
        Say(t, uid, CourseNotYetSubscribed, [UrlButton("Канал по курсу", env.cfg.courseChannelUrl),
                                             CallbackButton("Проверить подписку", FLOW4_COURSE_CLICK_CONFIRMED)])
      case Subscribed =>
        SourcesClean();
        var c := ConfirmCourseWith(t.st, t.ctx, SOURCE_COURSE_LINK_CLICK, env);
        Turn(c.ctx, c.st, t.out + c.out)
  }

  /** onFlow2Terms: outside the terms step only a restart hint. */
  function OnFlow2Terms(t: Turn, uid: int): (r: Turn)
    ensures HandlerFrame(t, r, uid)
    ensures r.st == t.st && |r.out| == |t.out| + 1 && r.out[..|t.out|] == t.out
    ensures t.ctx.currentStep != Some(Flow2WaitTerms) ==> r.ctx == t.ctx && r.out[|t.out|] == BotMessage(uid, RestartHint, [])
    ensures t.ctx.currentStep == Some(Flow2WaitTerms) ==>
      r.ctx == t.ctx.(currentStep := Some(Flow2WaitLinkRequest)) && r.out[|t.out|].text == Terms
  {
    if t.ctx.currentStep != Some(Flow2WaitTerms) then Say(t, uid, RestartHint, [])
    else Turn(t.ctx.(currentStep := Some(Flow2WaitLinkRequest)), t.st,
              t.out + [BotMessage(uid, Terms, [CallbackButton("А вот и ваша ссылка", FLOW2_SHOW_LINK)])])
  }

  /** The link and its footer; the flow goes idle. */
  function ShowLink(t: Turn, uid: int, link: string): (r: Turn)
    ensures r.st == t.st && r.ctx == t.ctx.(currentStep := Some(Idle))
    ensures r.out == t.out + [BotMessage(uid, ReferralLink(link), []), BotMessage(uid, LinkFooter, [])]
  {
    Turn(t.ctx.(currentStep := Some(Idle)), t.st,
         t.out + [BotMessage(uid, ReferralLink(link), []), BotMessage(uid, LinkFooter, [])])
  }

  /** onFlow2ShowLink (no step guard). A user who already has the "got
      link" tag and a non-blank stored link is shown that link; otherwise
      a new link is built and, unless it is longer than the column allows,
      stored, tagged and shown. */
  function OnFlow2ShowLink(t: Turn, uid: int, env: Env): (r: Turn)
    ensures HandlerFrame(t, r, uid)
    ensures uid !in t.st.users ==> r == Say(t, uid, FinishRegistrationFirst, [])
    ensures r.st.contexts == t.st.contexts && r.st.usages == t.st.usages && t.st.tags.Keys <= r.st.tags.Keys
    ensures r.st.users == t.st.users
      || (uid in t.st.users
          && r.st.users == t.st.users[uid := t.st.users[uid].(referralLinkCp := Some(BuildReferralLink(env.cfg.botUsername, uid)))])
    ensures uid in t.st.users ==> r.ctx.currentStep in {Some(Idle), Some(Flow2WaitLinkRequest)}
    ensures uid in t.st.users && r.ctx.currentStep == Some(Idle) ==> LinkShown(t, r, uid)
    ensures uid in t.st.users && r.ctx.currentStep == Some(Flow2WaitLinkRequest) ==>
      r.st == t.st && |BuildReferralLink(env.cfg.botUsername, uid)| > REFERRAL_LINK_MAX_LENGTH
      && r.out == t.out + [BotMessage(uid, LinkGenerationFailed, [CallbackButton("Попробовать снова", FLOW2_SHOW_LINK)])]
    ensures (uid in t.st.users && HasTag(t.st, uid, TAG_REFERRER_GOT_LINK) && t.st.users[uid].referralLinkCp.Some?
             && !IsBlank(t.st.users[uid].referralLinkCp.value)) ==> r.st == t.st && r.ctx.currentStep == Some(Idle)
    ensures r.ctx.(currentStep := t.ctx.currentStep) == t.ctx
    ensures Keyed(t.st) ==> Keyed(r.st)
  {
    if uid !in t.st.users then Say(t, uid, FinishRegistrationFirst, [])
    else
      var user := t.st.users[uid];
      var stored := user.referralLinkCp;
      if HasTag(t.st, uid, TAG_REFERRER_GOT_LINK) && stored.Some? && !IsBlank(stored.value) then
        ShowLink(t, uid, stored.value)
      else IssueLink(t, uid, env)
  }

  /** The user's stored link is shown, followed by the footer, and the
      user holds the "got link" tag. */
  predicate LinkShown(t: Turn, r: Turn, uid: int) {
    uid in r.st.users && r.st.users[uid].referralLinkCp.Some? && HasTag(r.st, uid, TAG_REFERRER_GOT_LINK)
    && r.out == t.out + [BotMessage(uid, ReferralLink(r.st.users[uid].referralLinkCp.value), []), BotMessage(uid, LinkFooter, [])]
  }

  /** A new link: shown and stored when it fits the column, otherwise an
      error with a retry button and the flow stays at the link request. */
  function IssueLink(t: Turn, uid: int, env: Env): (r: Turn)
    requires uid in t.st.users
    ensures var link := BuildReferralLink(env.cfg.botUsername, uid);
      if |link| > REFERRAL_LINK_MAX_LENGTH then
        r.st == t.st && r.ctx == t.ctx.(currentStep := Some(Flow2WaitLinkRequest))
        && r.out == t.out + [BotMessage(uid, LinkGenerationFailed, [CallbackButton("Попробовать снова", FLOW2_SHOW_LINK)])]
      else
        r.st.contexts == t.st.contexts && r.st.usages == t.st.usages && t.st.tags.Keys <= r.st.tags.Keys
        && r.st.users == t.st.users[uid := t.st.users[uid].(referralLinkCp := Some(link))]
        && HasTag(r.st, uid, TAG_REFERRER_GOT_LINK) && r.ctx == t.ctx.(currentStep := Some(Idle))
        && r.out == t.out + [BotMessage(uid, ReferralLink(link), []), BotMessage(uid, LinkFooter, [])]
        && LinkShown(t, r, uid)
    ensures Keyed(t.st) ==> Keyed(r.st)
  {
    var link := BuildReferralLink(env.cfg.botUsername, uid);
    if |link| > REFERRAL_LINK_MAX_LENGTH then
      Turn(t.ctx.(currentStep := Some(Flow2WaitLinkRequest)), t.st,
           t.out + [BotMessage(uid, LinkGenerationFailed, [CallbackButton("Попробовать снова", FLOW2_SHOW_LINK)])])
    else ShowLink(Turn(t.ctx, StoreLink(t.st, uid, link, env.now), t.out), uid, link)
  }

  /** A new link stored on the user's row and the "got link" tag assigned. */
  function StoreLink(st: Store, uid: int, link: string, now: Instant): (r: Store)
    requires uid in st.users
    ensures r.contexts == st.contexts && r.usages == st.usages && st.tags.Keys <= r.tags.Keys
    ensures r.users == st.users[uid := st.users[uid].(referralLinkCp := Some(link))]
    ensures HasTag(r, uid, TAG_REFERRER_GOT_LINK)
    ensures Keyed(st) ==> Keyed(r)
  {
    AssignTag(st.(users := st.users[uid := st.users[uid].(referralLinkCp := Some(link))]), uid, TAG_REFERRER_GOT_LINK, now)
  }

  /** finalizeHasChildrenInput: "no" records zero children and asks for the
      phone; "yes" asks whether the children study the Quran. */
  function FinalizeHasChildren(t: Turn, uid: int, hasChildren: bool, track: Track): (r: Turn)
    ensures r.st == t.st && |r.out| == |t.out| + 1 && r.out[..|t.out|] == t.out
    ensures r.ctx.hasChildren == Some(hasChildren) && r.ctx.childrenAges.None? && r.ctx.childrenAgeIndex.None?
    ensures !hasChildren ==>
      r.ctx.childrenCount == Some(0) && r.ctx.childrenStudyQuran.None?
      && r.ctx.currentStep == Some(track.PhoneStep()) && r.out[|t.out|] == PhoneRequest(uid)
    ensures hasChildren ==>
      r.ctx.childrenCount.None? && r.ctx.childrenStudyQuran == t.ctx.childrenStudyQuran
      && r.ctx.currentStep == Some(track.StudyStep())
      && r.out[|t.out|] == BotMessage(uid, AskChildrenStudy, YesNoButtons(track.StudyYes(), track.StudyNo()))
    ensures r.ctx.(hasChildren := t.ctx.hasChildren, childrenAges := t.ctx.childrenAges, childrenAgeIndex := t.ctx.childrenAgeIndex,
                   childrenCount := t.ctx.childrenCount, childrenStudyQuran := t.ctx.childrenStudyQuran,
                   currentStep := t.ctx.currentStep) == t.ctx
  {
    var c := t.ctx.(hasChildren := Some(hasChildren), childrenAges := None, childrenAgeIndex := None,
                    childrenCount := if hasChildren then None else Some(0));
    if !hasChildren then
      Turn(c.(childrenStudyQuran := None, currentStep := Some(track.PhoneStep())), t.st, t.out + [PhoneRequest(uid)])
    else
      Turn(c.(currentStep := Some(track.StudyStep())), t.st,
           t.out + [BotMessage(uid, AskChildrenStudy, YesNoButtons(track.StudyYes(), track.StudyNo()))])
  }

  /** finalizeChildrenStudyInput: the answer recorded, the phone requested. */
  function FinalizeChildrenStudy(t: Turn, uid: int, study: bool, track: Track): (r: Turn)
    ensures r.st == t.st && r.out == t.out + [PhoneRequest(uid)]
    ensures r.ctx.hasChildren == Some(true) && r.ctx.childrenStudyQuran == Some(study) && r.ctx.currentStep == Some(track.PhoneStep())
    ensures r.ctx.childrenCount.None? && r.ctx.childrenAges.None? && r.ctx.childrenAgeIndex.None?
    ensures r.ctx.(hasChildren := t.ctx.hasChildren, childrenAges := t.ctx.childrenAges, childrenAgeIndex := t.ctx.childrenAgeIndex,
                   childrenCount := t.ctx.childrenCount, childrenStudyQuran := t.ctx.childrenStudyQuran,
                   currentStep := t.ctx.currentStep) == t.ctx
  {
    Turn(t.ctx.(hasChildren := Some(true), childrenCount := None, childrenAges := None, childrenAgeIndex := None,
                childrenStudyQuran := Some(study), currentStep := Some(track.PhoneStep())),
         t.st, t.out + [PhoneRequest(uid)])
  }

  /** onFlow1HasChildren / onFlow4HasChildren: accepted in the has-children
      step and in the retired children-count step. */
  function OnHasChildren(t: Turn, uid: int, hasChildren: bool, track: Track): (r: Turn)
    ensures HandlerFrame(t, r, uid)
    ensures t.ctx.currentStep !in {Some(track.HasChildrenStep()), Some(track.ChildrenCountStep())} ==> r == t
    ensures t.ctx.currentStep in {Some(track.HasChildrenStep()), Some(track.ChildrenCountStep())} ==>
      r == FinalizeHasChildren(t, uid, hasChildren, track)
  {
    if t.ctx.currentStep !in {Some(track.HasChildrenStep()), Some(track.ChildrenCountStep())} then t
    else FinalizeHasChildren(t, uid, hasChildren, track)
  }

  /** onFlow1ChildrenStudy / onFlow4ChildrenStudy. */
  function OnChildrenStudy(t: Turn, uid: int, study: bool, track: Track): (r: Turn)
    ensures HandlerFrame(t, r, uid)
    ensures t.ctx.currentStep != Some(track.StudyStep()) ==> r == t
    ensures t.ctx.currentStep == Some(track.StudyStep()) ==> r == FinalizeChildrenStudy(t, uid, study, track)
  {
    if t.ctx.currentStep != Some(track.StudyStep()) then t else FinalizeChildrenStudy(t, uid, study, track)
  }

  // ---- Registration completion ---------------------------------------------

  /** upsertNormalUser / upsertReferralUser: the stored profile (or a new
      one) takes the context's answers and is marked registered, with the
      track's referral fields; points and the stored link are kept. */
  function UpsertUser(st: Store, uid: int, c: FlowContext, track: Track, now: Instant): (r: Store)
    ensures r.contexts == st.contexts && r.usages == st.usages && r.tags == st.tags
    ensures r.users.Keys == st.users.Keys + {uid}
    ensures forall k :: k in st.users && k != uid ==> r.users[k] == st.users[k]
    ensures var u := r.users[uid];
      u.registrationCompleted && u.consentGiven && u.schoolChannelSubscribed && !u.courseChannelSubscribed
      && u.registrationCompletedAt == Some(now) && u.referralCountedAt == Some(EPOCH)
      && u.userName == c.userName && u.age == c.age && u.phone == c.phone && u.readingLevel == c.readingLevel
      && u.hasChildren == c.hasChildren && u.childrenCount == c.childrenCount && u.childrenStudyQuran == c.childrenStudyQuran
      && u.childrenAges == c.childrenAges
      && u.telegramFirstName == c.telegramFirstName && u.telegramUsername == c.telegramUsername
      && (track == Track1 ==> u.referrerUserId == 0 && u.referralStatus == Some(NotApplicable))
      && (track == Track4 ==> u.referrerUserId == c.referrerUserId && u.referralStatus == Some(Pending))
    ensures uid in st.users ==>
      r.users[uid].referralPoints == st.users[uid].referralPoints
      && r.users[uid].referralLinkCp == st.users[uid].referralLinkCp && r.users[uid].userId == st.users[uid].userId
      && r.users[uid].createdAt == st.users[uid].createdAt
    ensures uid !in st.users ==>
      r.users[uid].referralPoints == 0 && r.users[uid].referralLinkCp.None?
      && r.users[uid].userId == uid && r.users[uid].createdAt == Some(now)
    ensures Keyed(st) ==> Keyed(r)
  {
    var base := if uid in st.users then st.users[uid] else NewUser(uid);
    var u := base.(telegramFirstName := c.telegramFirstName, telegramUsername := c.telegramUsername,
                   userName := c.userName, age := c.age, hasChildren := c.hasChildren,
                   childrenCount := c.childrenCount, childrenAges := c.childrenAges,
                   childrenStudyQuran := c.childrenStudyQuran, phone := c.phone, readingLevel := c.readingLevel,
                   consentGiven := true, schoolChannelSubscribed := true, courseChannelSubscribed := false,
                   registrationCompleted := true, registrationCompletedAt := Some(now),
                   referrerUserId := if track == Track1 then 0 else c.referrerUserId,
                   referralStatus := Some(if track == Track1 then NotApplicable else Pending),
                   referralCountedAt := Some(EPOCH));
    st.(users := st.users[uid := if uid in st.users then u else UserOnCreate(u, now)])
  }

  /** flushTempTagsToUser: assignTag for every tag, in order. */
  function FlushTags(st: Store, uid: int, tags: seq<string>, now: Instant): (r: Store)
    ensures r.users == st.users && r.contexts == st.contexts && r.usages == st.usages
    ensures r.tags.Keys == st.tags.Keys + (set t | t in tags :: (uid, t))
    ensures forall k :: k in st.tags ==> r.tags[k] == st.tags[k]
    decreases |tags|
  {
    if tags == [] then st
    else
      var r := FlushTags(AssignTag(st, uid, tags[0], now), uid, tags[1..], now);
      assert forall t :: t in tags <==> t == tags[0] || t in tags[1..];
      r
  }

  /** The announcement delay: a null or negative configured delay is zero. */
  function AnnouncementDelay(cfg: Config): (d: nat)
    ensures cfg.flow1ToFlow2Delay.Some? && cfg.flow1ToFlow2Delay.value >= 0 ==> d == cfg.flow1ToFlow2Delay.value
    ensures cfg.flow1ToFlow2Delay.None? || cfg.flow1ToFlow2Delay.value < 0 ==> d == 0
  {
    if cfg.flow1ToFlow2Delay.None? || cfg.flow1ToFlow2Delay.value < 0 then 0 else cfg.flow1ToFlow2Delay.value
  }

  /** resolveAutomationRetryDelay: the tick delay, or 30 seconds when it is
      null, negative or zero. Always positive. */
  function RetryDelay(cfg: Config): (d: int)
    ensures d > 0
    ensures cfg.automationTickDelay.Some? && cfg.automationTickDelay.value > 0 ==> d == cfg.automationTickDelay.value
    ensures cfg.automationTickDelay.None? || cfg.automationTickDelay.value <= 0 ==> d == DEFAULT_RETRY_DELAY
  {
    if cfg.automationTickDelay.None? || cfg.automationTickDelay.value <= 0 then DEFAULT_RETRY_DELAY
    else cfg.automationTickDelay.value
  }

  /** The zero-delay announcement: the course confirmed for the user,
      FLOW2 started with the announcement sent, and its intro. */
  function AnnounceNow(t: Turn, uid: int, env: Env): (r: Turn)
    ensures |r.out| > |t.out| && r.out[..|t.out|] == t.out && r.out[|r.out| - 1] == ReferralProgramIntroMessage(uid)
    ensures r.st.users.Keys == t.st.users.Keys && t.st.tags.Keys <= r.st.tags.Keys && r.st.contexts == t.st.contexts
    ensures forall k :: k in t.st.users ==> SameProfile(r.st.users[k], t.st.users[k])
    ensures uid in t.st.users ==> r.st.users[uid].referralPoints == t.st.users[uid].referralPoints
    ensures uid in t.st.users ==>
      r.st.users[uid].referralStatus == t.st.users[uid].referralStatus || r.st.users[uid].referralStatus == Some(Counted)
    ensures uid in t.st.users && t.st.users[uid].referralStatus != Some(Pending) ==>
      r.st.users[uid].referralStatus == t.st.users[uid].referralStatus
    ensures uid in t.st.users ==> r.st.users[uid].courseChannelSubscribed && HasTag(r.st, uid, TAG_COURSE_CHANNEL_CONFIRMED)
    ensures r.ctx == StartFlow2(t.ctx.(referralAnnouncementDueAt := None, referralAnnouncementSent := true))
    ensures Keyed(t.st) ==> Keyed(r.st)
  {
    SourcesClean();
    var conf := ConfirmCourse(t.st, uid, SOURCE_ZERO_DELAY, env);
    Turn(StartFlow2(t.ctx.(referralAnnouncementDueAt := None, referralAnnouncementSent := true)), conf.st,
         t.out + conf.out + [ReferralProgramIntroMessage(uid)])
  }

  /** scheduleReferralProgramAnnouncement. With zero delay and a confirmed
      course subscription the course is confirmed and the programme
      announced at once; otherwise the context waits, due after the delay
      (or after the retry interval when the delay is zero). */
  function ScheduleAnnouncement(t: Turn, uid: int, waitingStep: FlowStep, env: Env): (r: Turn)
    ensures |r.out| >= |t.out| && r.out[..|t.out|] == t.out
    ensures r.st.users.Keys == t.st.users.Keys && t.st.tags.Keys <= r.st.tags.Keys && r.st.contexts == t.st.contexts
    ensures forall k :: k in t.st.users ==> SameProfile(r.st.users[k], t.st.users[k])
    ensures uid in t.st.users ==> r.st.users[uid].referralPoints == t.st.users[uid].referralPoints
    ensures uid in t.st.users ==>
      r.st.users[uid].referralStatus == t.st.users[uid].referralStatus || r.st.users[uid].referralStatus == Some(Counted)
    ensures uid in t.st.users && t.st.users[uid].referralStatus != Some(Pending) ==>
      r.st.users[uid].referralStatus == t.st.users[uid].referralStatus
    ensures AnnouncementDelay(env.cfg) == 0 && env.oracle.course(uid) == SubscriptionCheckResult.Subscribed ==>
      r.ctx.currentStep == Some(Flow2WaitTerms) && r.ctx.referralAnnouncementSent && r.ctx.referralAnnouncementDueAt.None?
      && |r.out| > |t.out| && r.out[|r.out| - 1] == ReferralProgramIntroMessage(uid)
      && (uid in t.st.users ==> r.st.users[uid].courseChannelSubscribed && HasTag(r.st, uid, TAG_COURSE_CHANNEL_CONFIRMED))
    ensures AnnouncementDelay(env.cfg) == 0 && env.oracle.course(uid) != SubscriptionCheckResult.Subscribed ==>
      r.ctx.currentStep == Some(waitingStep) && !r.ctx.referralAnnouncementSent
      && r.ctx.referralAnnouncementDueAt == Some(env.now + RetryDelay(env.cfg)) && r.st == t.st && r.out == t.out
    ensures AnnouncementDelay(env.cfg) > 0 ==>
      r.ctx.currentStep == Some(waitingStep) && !r.ctx.referralAnnouncementSent
      && r.ctx.referralAnnouncementDueAt == Some(env.now + AnnouncementDelay(env.cfg)) && r.st == t.st && r.out == t.out
    ensures r.ctx.(currentStep := t.ctx.currentStep, referralAnnouncementSent := t.ctx.referralAnnouncementSent,
                   referralAnnouncementDueAt := t.ctx.referralAnnouncementDueAt) == t.ctx
    ensures Keyed(t.st) ==> Keyed(r.st)
    ensures HandlerFrame(t, r, uid)
  {
    var delay := AnnouncementDelay(env.cfg);
    if delay == 0 then
      if env.oracle.course(uid) == SubscriptionCheckResult.Subscribed then
        AnnounceNow(t, uid, env)
      else
        Turn(t.ctx.(currentStep := Some(waitingStep), referralAnnouncementDueAt := Some(env.now + RetryDelay(env.cfg)),
                    referralAnnouncementSent := false), t.st, t.out)
    else
      Turn(t.ctx.(currentStep := Some(waitingStep), referralAnnouncementDueAt := Some(env.now + delay),
                  referralAnnouncementSent := false), t.st, t.out)
  }

  /** What registration leaves in the user row: the profile as the
      context holds it, registered, with the track's referral fields. */
  predicate Registered(u: User, c: FlowContext, level: ReadingLevel, track: Track) {
    u.registrationCompleted && u.consentGiven && u.schoolChannelSubscribed
    && u.readingLevel == Some(level) && u.userName == c.userName && u.phone == c.phone && u.age == c.age
    && u.hasChildren == c.hasChildren && u.childrenStudyQuran == c.childrenStudyQuran
    && (track == Track1 ==> u.referrerUserId == 0 && u.referralStatus == Some(NotApplicable))
    && (track == Track4 ==> u.referrerUserId == c.referrerUserId && u.referralStatus in {Some(Pending), Some(Counted)})
  }

  /** Confirming the course or counting a pending referral leaves a
      registered profile registered. */
  lemma RegisteredKept(a: User, b: User, c: FlowContext, level: ReadingLevel, track: Track)
    requires Registered(b, c, level, track) && SameProfile(a, b)
    requires a.referralStatus == b.referralStatus || (b.referralStatus == Some(Pending) && a.referralStatus == Some(Counted))
    ensures Registered(a, c, level, track)
  {
  }

  /** handleFlow1ReadingLevel / handleFlow4ReadingLevel: outside the
      reading-level step, or for an unknown level, only a hint. Otherwise
      the level is recorded and tagged, the profile upserted, the
      temporary tags written to the user, the administrators notified, the
      user congratulated, and the announcement scheduled. */
  function HandleReadingLevel(t: Turn, uid: int, callback: string, track: Track, env: Env): (r: Turn)
    requires StartsWith(callback, track.LevelPrefix())
    ensures HandlerFrame(t, r, uid)
    ensures t.ctx.currentStep != Some(track.LevelStep()) ==> r == Say(t, uid, CompletePreviousSteps, [])
    ensures t.ctx.currentStep == Some(track.LevelStep()) && ParseReadingLevel(callback, track.LevelPrefix()).None? ==>
      r == Say(t, uid, ChooseOfferedLevel, [])
    ensures t.ctx.currentStep == Some(track.LevelStep()) && ParseReadingLevel(callback, track.LevelPrefix()).Some? ==>
      r == CompleteRegistration(t, uid, ParseReadingLevel(callback, track.LevelPrefix()).value, track, env)
  {
    if t.ctx.currentStep != Some(track.LevelStep()) then Say(t, uid, CompletePreviousSteps, [])
    else match ParseReadingLevel(callback, track.LevelPrefix())
      case None => Say(t, uid, ChooseOfferedLevel, [])
      case Some(level) => CompleteRegistration(t, uid, level, track, env)
  }

  /** After the messages already sent come the administrators' notices
      and then the congratulation. */
  predicate NoticesSent(t: Turn, r: Turn, uid: int, cfg: Config) {
    |r.out| > |t.out| + |cfg.adminRecipients|
    && r.out[..|t.out| + |cfg.adminRecipients| + 1] ==
       t.out + AdminNotices(cfg.adminRecipients, uid) + [RegistrationDoneMessage(uid, cfg)]
  }

  function RegistrationDoneMessage(uid: int, cfg: Config): BotMessage {
    BotMessage(uid, RegistrationCompleted, [UrlButton("Канал по курсу", cfg.courseChannelUrl)])
  }

  /** A completed registration: the profile registered with the chosen
      level, every temporary tag and the level label assigned, the
      administrators notified and the user congratulated, in that order,
      and then the announcement scheduled. */
  function CompleteRegistration(t: Turn, uid: int, level: ReadingLevel, track: Track, env: Env): (r: Turn)
    ensures r.st.contexts == t.st.contexts
    ensures uid in r.st.users && Registered(r.st.users[uid], t.ctx, level, track)
    ensures uid in t.st.users ==>
      r.st.users[uid].referralPoints == t.st.users[uid].referralPoints
      && r.st.users[uid].referralLinkCp == t.st.users[uid].referralLinkCp
    ensures forall tag :: tag in ParseTags(t.ctx.tempTags) ==> HasTag(r.st, uid, tag)
    ensures HasTag(r.st, uid, level.Label())
    ensures NoticesSent(t, r, uid, env.cfg)
    ensures r.ctx.readingLevel == Some(level)
    ensures HandlerFrame(t, r, uid)
  {
    var reg := Register(t, uid, level, track, env.now);
    var n := Notify(reg, uid, env.cfg);
    var r := ScheduleAnnouncement(n, uid, track.AnnouncementStep(), env);
    RegistrationSurvivesScheduling(t, reg, n, r, uid, level, track, env.cfg);
    r
  }

  /** Scheduling the announcement keeps what registration and the
      notices established: it may only confirm the course and count the
      referral, and it appends after the notices. */
  lemma RegistrationSurvivesScheduling(t: Turn, reg: Turn, n: Turn, r: Turn, uid: int, level: ReadingLevel, track: Track,
                                       cfg: Config)
    requires reg.st.contexts == t.st.contexts && reg.st.users.Keys == t.st.users.Keys + {uid}
    requires Registered(reg.st.users[uid], t.ctx, level, track)
    requires uid in t.st.users ==>
      reg.st.users[uid].referralPoints == t.st.users[uid].referralPoints
      && reg.st.users[uid].referralLinkCp == t.st.users[uid].referralLinkCp
    requires forall tag :: tag in ParseTags(t.ctx.tempTags) ==> HasTag(reg.st, uid, tag)
    requires HasTag(reg.st, uid, level.Label()) && reg.ctx.readingLevel == Some(level)
    requires HandlerFrame(t, reg, uid) && reg.out == t.out
    requires n.ctx == reg.ctx && n.st == reg.st
    requires n.out == reg.out + AdminNotices(cfg.adminRecipients, uid) + [RegistrationDoneMessage(uid, cfg)]
    requires HandlerFrame(n, r, uid) && r.st.users.Keys == n.st.users.Keys && r.st.contexts == n.st.contexts
    requires forall k :: k in n.st.users ==> SameProfile(r.st.users[k], n.st.users[k])
    requires uid in n.st.users ==>
      r.st.users[uid].referralStatus == n.st.users[uid].referralStatus
      || (n.st.users[uid].referralStatus == Some(Pending) && r.st.users[uid].referralStatus == Some(Counted))
    requires uid in n.st.users ==> r.st.users[uid].referralPoints == n.st.users[uid].referralPoints
    requires r.ctx.readingLevel == n.ctx.readingLevel
    ensures r.st.contexts == t.st.contexts
    ensures uid in r.st.users && Registered(r.st.users[uid], t.ctx, level, track)
    ensures uid in t.st.users ==>
      r.st.users[uid].referralPoints == t.st.users[uid].referralPoints
      && r.st.users[uid].referralLinkCp == t.st.users[uid].referralLinkCp
    ensures forall tag :: tag in ParseTags(t.ctx.tempTags) ==> HasTag(r.st, uid, tag)
    ensures HasTag(r.st, uid, level.Label())
    ensures NoticesSent(t, r, uid, cfg)
    ensures r.ctx.readingLevel == Some(level)
    ensures HandlerFrame(t, r, uid)
  {
    RegisteredKept(r.st.users[uid], n.st.users[uid], t.ctx, level, track);
    FrameTransitive(t, reg, n, uid);
    FrameTransitive(t, n, r, uid);
    assert r.out[..|n.out|][..|t.out| + |cfg.adminRecipients| + 1] == n.out;
  }

  /** The administrators' notices and the congratulation, in that order. */
  function Notify(t: Turn, uid: int, cfg: Config): (r: Turn)
    ensures HandlerFrame(t, r, uid)
    ensures r.ctx == t.ctx && r.st == t.st
    ensures r.out == t.out + AdminNotices(cfg.adminRecipients, uid) + [RegistrationDoneMessage(uid, cfg)]
  {
    var r := t.(out := t.out + AdminNotices(cfg.adminRecipients, uid) + [RegistrationDoneMessage(uid, cfg)]);
    assert r.out[..|t.out|] == t.out;
    r
  }

  /** The store side of a completed registration: the level recorded and
      added to the temporary tags, the profile upserted, every temporary
      tag and the level label assigned to the user. */
  function Register(t: Turn, uid: int, level: ReadingLevel, track: Track, now: Instant): (r: Turn)
    ensures r.out == t.out && r.st.contexts == t.st.contexts
    ensures t.st.tags.Keys <= r.st.tags.Keys && r.st.users.Keys == t.st.users.Keys + {uid}
    ensures forall k :: k in t.st.users && k != uid ==> r.st.users[k] == t.st.users[k]
    ensures Registered(r.st.users[uid], t.ctx, level, track)
    ensures uid in t.st.users ==>
      r.st.users[uid].referralPoints == t.st.users[uid].referralPoints
      && r.st.users[uid].referralLinkCp == t.st.users[uid].referralLinkCp
    ensures forall tag :: tag in ParseTags(t.ctx.tempTags) ==> HasTag(r.st, uid, tag)
    ensures HasTag(r.st, uid, level.Label())
    ensures r.ctx.readingLevel == Some(level) && r.ctx.userId == t.ctx.userId
    ensures ParseTags(r.ctx.tempTags) == AddIfAbsent(ParseTags(t.ctx.tempTags), level.Label())
    ensures r.ctx.(readingLevel := t.ctx.readingLevel, tempTags := t.ctx.tempTags) == t.ctx
    ensures Keyed(t.st) && t.ctx.userId == uid ==> Keyed(r.st)
    ensures HandlerFrame(t, r, uid)
  {
    LabelsClean(level);
    var c := WithTempTag(t.ctx.(readingLevel := Some(level)), level.Label());
    var st1 := UpsertUser(t.st, uid, c, track, now);
    var st2 := AssignTag(FlushTags(st1, uid, ParseTags(c.tempTags), now), uid, level.Label(), now);
    assert forall tag :: tag in ParseTags(t.ctx.tempTags) ==> HasTag(st2, uid, tag);
    StoreStep(t, Turn(c, st2, t.out), uid);
    Turn(c, st2, t.out)
  }

  /** A step that sends nothing, keeps every context and only adds user
      rows and tags is a handler step. */
  lemma StoreStep(t: Turn, r: Turn, uid: int)
    requires r.out == t.out && r.st.contexts == t.st.contexts && r.ctx.userId == t.ctx.userId
    requires t.st.users.Keys <= r.st.users.Keys && t.st.tags.Keys <= r.st.tags.Keys
    requires Keyed(t.st) && t.ctx.userId == uid ==> Keyed(r.st)
    ensures HandlerFrame(t, r, uid)
  {
  }

  /** handleCallback: the two level prefixes first, then the exact
      callbacks; anything else is a stale button. */
  function HandleCallback(t: Turn, req: Request, callback: string, env: Env): (r: Turn)
    requires t.ctx.userId == req.userId
    ensures HandlerFrame(t, r, req.userId)
  {
    var uid := req.userId;
    if StartsWith(callback, FLOW1_LEVEL_PREFIX) then HandleReadingLevel(t, uid, callback, Track1, env)
    else if StartsWith(callback, FLOW4_LEVEL_PREFIX) then HandleReadingLevel(t, uid, callback, Track4, env)
    else Flow1Callback(t, req, callback, env)
  }

  /** The exact FLOW1 callbacks; any other goes on to LaterCallback. */
  function Flow1Callback(t: Turn, req: Request, callback: string, env: Env): (r: Turn)
    requires t.ctx.userId == req.userId
    ensures HandlerFrame(t, r, req.userId)
  {
    var uid := req.userId;
    if callback == FLOW1_INTRO_CONTINUE then OnFlow1IntroContinue(t, uid)
    else if callback == FLOW1_SCHOOL_RECHECK then OnFlow1SchoolRecheck(t, uid, env)
    else if callback == FLOW1_CONSENT_CONTINUE then OnFlow1ConsentContinue(t, req)
    else if callback == FLOW1_COURSE_RECHECK then OnFlow1CourseRecheck(t, uid, env)
    else if callback == FLOW1_HAS_CHILDREN_YES then OnHasChildren(t, uid, true, Track1)
    else if callback == FLOW1_HAS_CHILDREN_NO then OnHasChildren(t, uid, false, Track1)
    else if callback == FLOW1_CHILDREN_STUDY_YES then OnChildrenStudy(t, uid, true, Track1)
    else if callback == FLOW1_CHILDREN_STUDY_NO then OnChildrenStudy(t, uid, false, Track1)
    else LaterCallback(t, req, callback, env)
  }

  /** The exact FLOW2, FLOW3 and FLOW4 callbacks; anything else is a stale
      button. */
  function LaterCallback(t: Turn, req: Request, callback: string, env: Env): (r: Turn)
    requires t.ctx.userId == req.userId
    ensures HandlerFrame(t, r, req.userId)
  {
    var uid := req.userId;
    if callback == FLOW2_TERMS then OnFlow2Terms(t, uid)
    else if callback == FLOW2_SHOW_LINK then OnFlow2ShowLink(t, uid, env)
    else if callback == FLOW3_SCHOOL_RECHECK then OnFlow3SchoolRecheck(t, uid, env)
    else if callback == FLOW3_CONSENT_CONTINUE then OnFlow3ConsentContinue(t, uid)
    else if callback == FLOW4_HAS_CHILDREN_YES then OnHasChildren(t, uid, true, Track4)
    else if callback == FLOW4_HAS_CHILDREN_NO then OnHasChildren(t, uid, false, Track4)
    else if callback == FLOW4_CHILDREN_STUDY_YES then OnChildrenStudy(t, uid, true, Track4)
    else if callback == FLOW4_CHILDREN_STUDY_NO then OnChildrenStudy(t, uid, false, Track4)
    else if callback == FLOW4_COURSE_CLICK_CONFIRMED then OnFlow4CourseClickConfirmed(t, uid, env)
    else Say(t, uid, StaleButton, [])
  }

  // ---- Text and contact ----------------------------------------------------

  /** handleNameInput: a valid name is stored trimmed and the age asked
      for; anything else is re-prompted with nothing changed. */
  function HandleNameInput(t: Turn, uid: int, text: string, track: Track): (r: Turn)
    ensures r.st == t.st && |r.out| == |t.out| + 1 && r.out[..|t.out|] == t.out
    ensures !IsValidName(Trim(text)) ==> r.ctx == t.ctx && r.out[|t.out|] == BotMessage(uid, InvalidName, [])
    ensures IsValidName(Trim(text)) ==>
      r.ctx.userName == Some(Trim(text)) && r.ctx.currentStep == Some(track.AgeStep())
      && r.out[|t.out|] == BotMessage(uid, AskAge, [])
      && r.ctx.flowType == (if track == Track4 then Some(Referral) else t.ctx.flowType)
    ensures r.ctx.(userName := t.ctx.userName, currentStep := t.ctx.currentStep, flowType := t.ctx.flowType) == t.ctx
  {
    var name := Trim(text);
    if !IsValidName(name) then Say(t, uid, InvalidName, [])
    else
      var c := t.ctx.(userName := Some(name), currentStep := Some(track.AgeStep()));
      Turn(if track == Track4 then c.(flowType := Some(Referral)) else c, t.st, t.out + [BotMessage(uid, AskAge, [])])
  }

  /** handleAgeInput: an integer age in [7, 100] is stored and the
      has-children question asked; anything else is re-prompted. */
  function HandleAgeInput(t: Turn, uid: int, text: string, track: Track): (r: Turn)
    ensures r.st == t.st && |r.out| > |t.out| && r.out[..|t.out|] == t.out
    ensures ParseAge(text).None? ==> r == Say(t, uid, InvalidAge, [])
    ensures ParseAge(text).Some? ==>
      7 <= ParseAge(text).value <= 100 && r.ctx == t.ctx.(age := ParseAge(text), currentStep := Some(track.HasChildrenStep()))
      && r.out[|t.out|..] == [BotMessage(uid, NiceToMeet(t.ctx.userName), []),
                              BotMessage(uid, AskHasChildren, YesNoButtons(track.HasChildrenYes(), track.HasChildrenNo()))]
  {
    match ParseAge(text)
    case None => Say(t, uid, InvalidAge, [])
    case Some(age) =>
      Turn(t.ctx.(age := Some(age), currentStep := Some(track.HasChildrenStep())), t.st,
           t.out + [BotMessage(uid, NiceToMeet(t.ctx.userName), []),
                    BotMessage(uid, AskHasChildren, YesNoButtons(track.HasChildrenYes(), track.HasChildrenNo()))])
  }

  /** handleHasChildrenInput: yes/no text, or a re-prompt with the buttons. */
  function HandleHasChildrenInput(t: Turn, uid: int, text: string, track: Track): (r: Turn)
    ensures ParseYesNo(text).None? ==>
      r == Say(t, uid, ChooseOptionBelowPointing, YesNoButtons(track.HasChildrenYes(), track.HasChildrenNo()))
    ensures ParseYesNo(text).Some? ==> r == FinalizeHasChildren(t, uid, ParseYesNo(text).value, track)
  {
    match ParseYesNo(text)
    case None => Say(t, uid, ChooseOptionBelowPointing, YesNoButtons(track.HasChildrenYes(), track.HasChildrenNo()))
    case Some(b) => FinalizeHasChildren(t, uid, b, track)
  }

  /** handleLegacyChildAgeInput: the retired child-age step is answered by
      skipping straight to the study question. */
  function HandleLegacyChildAge(t: Turn, uid: int, track: Track): (r: Turn)
    ensures r.st == t.st
    ensures r.ctx.hasChildren == Some(true) && r.ctx.currentStep == Some(track.StudyStep())
    ensures r.ctx.childrenCount.None? && r.ctx.childrenAges.None? && r.ctx.childrenAgeIndex.None?
    ensures r.ctx.(hasChildren := t.ctx.hasChildren, childrenCount := t.ctx.childrenCount, childrenAges := t.ctx.childrenAges,
                   childrenAgeIndex := t.ctx.childrenAgeIndex, currentStep := t.ctx.currentStep) == t.ctx
    ensures r.out == t.out + [BotMessage(uid, AskChildrenStudy, YesNoButtons(track.StudyYes(), track.StudyNo()))]
  {
    Turn(t.ctx.(hasChildren := Some(true), childrenCount := None, childrenAges := None,
                childrenAgeIndex := None, currentStep := Some(track.StudyStep())),
         t.st, t.out + [BotMessage(uid, AskChildrenStudy, YesNoButtons(track.StudyYes(), track.StudyNo()))])
  }

  /** handleChildrenStudyTextInput. */
  function HandleChildrenStudyText(t: Turn, uid: int, text: string, track: Track): (r: Turn)
    ensures ParseYesNo(text).None? ==>
      r == Say(t, uid, ChooseOptionBelow, YesNoButtons(track.StudyYes(), track.StudyNo()))
    ensures ParseYesNo(text).Some? ==> r == FinalizeChildrenStudy(t, uid, ParseYesNo(text).value, track)
  {
    match ParseYesNo(text)
    case None => Say(t, uid, ChooseOptionBelow, YesNoButtons(track.StudyYes(), track.StudyNo()))
    case Some(b) => FinalizeChildrenStudy(t, uid, b, track)
  }

  /** The steps in which typed text is an answer. */
  predicate ExpectsText(step: Option<FlowStep>) {
    step in {Some(Flow1WaitName), Some(Flow4WaitName), Some(Flow1WaitAge), Some(Flow4WaitAge),
             Some(Flow1WaitHasChildren), Some(Flow1WaitChildrenCount), Some(Flow4WaitHasChildren),
             Some(Flow4WaitChildrenCount), Some(Flow1WaitChildAge), Some(Flow4WaitChildAge),
             Some(Flow1WaitChildrenQuranStudy), Some(Flow4WaitChildrenQuranStudy)}
  }

  /** handleText: dispatch on the current step; a step that expects no
      text gets a hint. Text never touches the store. */
  function HandleText(t: Turn, uid: int, text: string): (r: Turn)
    ensures HandlerFrame(t, r, uid)
    ensures r.st == t.st && |r.out| > |t.out| && r.out[..|t.out|] == t.out
    ensures r.ctx.userId == t.ctx.userId
    ensures !ExpectsText(t.ctx.currentStep) ==> r.ctx == t.ctx
  {
    match t.ctx.currentStep
    case Some(Flow1WaitName) => HandleNameInput(t, uid, text, Track1)
    case Some(Flow4WaitName) => HandleNameInput(t, uid, text, Track4)
    case Some(Flow1WaitAge) => HandleAgeInput(t, uid, text, Track1)
    case Some(Flow4WaitAge) => HandleAgeInput(t, uid, text, Track4)
    case Some(Flow1WaitHasChildren) => HandleHasChildrenInput(t, uid, text, Track1)
    case Some(Flow1WaitChildrenCount) => HandleHasChildrenInput(t, uid, text, Track1)
    case Some(Flow4WaitHasChildren) => HandleHasChildrenInput(t, uid, text, Track4)
    case Some(Flow4WaitChildrenCount) => HandleHasChildrenInput(t, uid, text, Track4)
    case Some(Flow1WaitChildAge) => HandleLegacyChildAge(t, uid, Track1)
    case Some(Flow4WaitChildAge) => HandleLegacyChildAge(t, uid, Track4)
    case Some(Flow1WaitChildrenQuranStudy) => HandleChildrenStudyText(t, uid, text, Track1)
    case Some(Flow4WaitChildrenQuranStudy) => HandleChildrenStudyText(t, uid, text, Track4)
    case Some(Flow1WaitReferralProgramAnnouncement) => Say(t, uid, AlmostReady, [])
    case Some(Flow4WaitReferralProgramAnnouncement) => Say(t, uid, AlmostReady, [])
    case Some(Flow1WaitPhone) => Say(t, uid, SendPhoneViaButton, [RequestContactButton("Отправить номер")])
    case Some(Flow4WaitPhone) => Say(t, uid, SendPhoneViaButton, [RequestContactButton("Отправить номер")])
    case _ => Say(t, uid, DefaultHint, [])
  }

  /** handleContact: accepted only in a phone step and only for the
      sender's own contact; then the reading level is asked. */
  function HandleContact(t: Turn, uid: int, contact: Contact): (r: Turn)
    ensures HandlerFrame(t, r, uid)
    ensures r.st == t.st && |r.out| == |t.out| + 1 && r.out[..|t.out|] == t.out
    ensures t.ctx.currentStep !in {Some(Flow1WaitPhone), Some(Flow4WaitPhone)} ==>
      r.ctx == t.ctx && r.out[|t.out|] == BotMessage(uid, ContactNotRequested, [])
    ensures t.ctx.currentStep in {Some(Flow1WaitPhone), Some(Flow4WaitPhone)} && contact.userId != Some(uid) ==>
      r.ctx == t.ctx && r.out[|t.out|] == BotMessage(uid, OwnContactRequired, [RequestContactButton("Отправить номер")])
    ensures t.ctx.currentStep == Some(Flow1WaitPhone) && contact.userId == Some(uid) ==>
      r.ctx == t.ctx.(phone := contact.phoneNumber, currentStep := Some(Flow1WaitReadingLevel))
      && r.out[|t.out|] == BotMessage(uid, AskReadingLevel, LevelButtons(FLOW1_LEVEL_PREFIX))
    ensures t.ctx.currentStep == Some(Flow4WaitPhone) && contact.userId == Some(uid) ==>
      r.ctx == t.ctx.(phone := contact.phoneNumber, currentStep := Some(Flow4WaitReadingLevel))
      && r.out[|t.out|] == BotMessage(uid, AskReadingLevel, LevelButtons(FLOW4_LEVEL_PREFIX))
  {
    if t.ctx.currentStep !in {Some(Flow1WaitPhone), Some(Flow4WaitPhone)} then Say(t, uid, ContactNotRequested, [])
    else if contact.userId != Some(uid) then Say(t, uid, OwnContactRequired, [RequestContactButton("Отправить номер")])
    else
      var track := if t.ctx.currentStep == Some(Flow1WaitPhone) then Track1 else Track4;
      Turn(t.ctx.(phone := contact.phoneNumber, currentStep := Some(track.LevelStep())), t.st,
           t.out + [BotMessage(uid, AskReadingLevel, LevelButtons(track.LevelPrefix()))])
  }

  // ---- Entry point ---------------------------------------------------------

  /** The sender's context as handleUpdate starts with it: loaded (or
      created), with the first name and normalised username refreshed. */
  function Refreshed(st: Store, req: Request): (c: FlowContext)
    ensures c.userId == req.userId || req.userId in st.contexts
    ensures Keyed(st) ==> c.userId == req.userId
    ensures c.telegramFirstName == req.firstName && c.telegramUsername == NormalizeUsername(req.username)
    ensures req.userId in st.contexts ==>
      c.(telegramFirstName := st.contexts[req.userId].telegramFirstName,
         telegramUsername := st.contexts[req.userId].telegramUsername) == st.contexts[req.userId]
  {
    LoadContext(st, req.userId, req.firstName).(telegramFirstName := req.firstName, telegramUsername := NormalizeUsername(req.username))
  }

  /** The handler an event goes to. */
  function Dispatch(t: Turn, req: Request, e: Event, env: Env): (r: Turn)
    requires t.ctx.userId == req.userId
    ensures HandlerFrame(t, r, req.userId)
  {
    match e
    case StartCommand(command) => HandleStartCommand(t, req, command, env)
    case CallbackPressed(data) => HandleCallback(t, req, data, env)
    case ContactShared(contact) => HandleContact(t, req.userId, contact)
    case PlainText(text) => HandleText(t, req.userId, text)
    case NoInput => Say(t, req.userId, StartNudge, [])
  }

  /** handleUpdate: classify, handle, save the sender's context. Other
      users' contexts are untouched, no row or tag disappears, and the
      store stays keyed by user id. */
  function HandleUpdate(st: Store, req: Request, env: Env): (o: Outcome)
    requires Keyed(st)
    ensures Keyed(o.store)
    ensures o.store.contexts.Keys == st.contexts.Keys + {req.userId}
    ensures forall k :: k in st.contexts && k != req.userId ==> o.store.contexts[k] == st.contexts[k]
    ensures st.users.Keys <= o.store.users.Keys && st.tags.Keys <= o.store.tags.Keys
  {
    var t0 := Turn(Refreshed(st, req), st, []);
    var t := Dispatch(t0, req, Classify(req), env);
    SavedAfterHandler(t0, t, req.userId, env.now);
    Outcome(SaveContext(t.st, t.ctx, env.now), t.out)
  }

  /** Saving the context a handler leaves behind completes the update's
      frame: the sender's context is stored, nobody else's changes. */
  lemma SavedAfterHandler(t0: Turn, t: Turn, uid: int, now: Instant)
    requires HandlerFrame(t0, t, uid) && t0.ctx.userId == uid && Keyed(t0.st)
    ensures var st' := SaveContext(t.st, t.ctx, now);
      Keyed(st') && st'.contexts.Keys == t0.st.contexts.Keys + {uid}
      && (forall k :: k in t0.st.contexts && k != uid ==> st'.contexts[k] == t0.st.contexts[k])
      && t0.st.users.Keys <= st'.users.Keys && t0.st.tags.Keys <= st'.tags.Keys
  {
    var st' := SaveContext(t.st, t.ctx, now);
    assert forall k :: k in st'.contexts <==> k in t0.st.contexts || k == uid;
  }
}
