/** The persistent entities of the bot (user profile, flow context,
    referral link usage), the enumerations they use, and their JPA
    lifecycle hooks. */
module Domain {
  import opened Wrappers

  /** java.time.Instant as whole seconds since 1970-01-01T00:00:00Z. */
  type Instant = int

  const EPOCH: Instant := 0

  /** A referral event id (a java.util.UUID read as a 128-bit number). */
  type EventId = nat

  /** A Java int. */
  newtype Int32 = n: int | -0x8000_0000 <= n < 0x8000_0000

  /** `n + 1` on a Java int: 2^31-1 wraps to -2^31. */
  function IncInt32(n: Int32): (r: Int32)
    ensures n < 0x7FFF_FFFF ==> r as int == n as int + 1
    ensures n == 0x7FFF_FFFF ==> r == -0x8000_0000
  {
    if n == 0x7FFF_FFFF then -0x8000_0000 else n + 1
  }

  datatype ReadingLevel =
    | StartFromZero
    | ReadBySyllables
    | KnowBasics
    | ReadWithMistakes
    | ReadConfidently
  {
    /** The label shown to users and used as a tag. */
    function Label(): string {
      match this
      case StartFromZero => "Начинаю с нуля"
      case ReadBySyllables => "Читаю по слогам"
      case KnowBasics => "Знаю основы"
      case ReadWithMistakes => "Читаю с ошибками"
      case ReadConfidently => "Читаю уверенно"
    }

    /** Enum.ordinal: the position in declaration order. */
    function Ordinal(): (i: nat)
      ensures i < |READING_LEVELS| && READING_LEVELS[i] == this
    {
      match this
      case StartFromZero => 0
      case ReadBySyllables => 1
      case KnowBasics => 2
      case ReadWithMistakes => 3
      case ReadConfidently => 4
    }

    /** The enum constant's name (Enum.name / valueOf). */
    function Name(): string {
      match this
      case StartFromZero => "START_FROM_ZERO"
      case ReadBySyllables => "READ_BY_SYLLABLES"
      case KnowBasics => "KNOW_BASICS"
      case ReadWithMistakes => "READ_WITH_MISTAKES"
      case ReadConfidently => "READ_CONFIDENTLY"
    }
  }

  /** ReadingLevel.values(), in declaration order. */
  const READING_LEVELS: seq<ReadingLevel> :=
    [StartFromZero, ReadBySyllables, KnowBasics, ReadWithMistakes, ReadConfidently]

  function FirstWithLabel(levels: seq<ReadingLevel>, text: string): (r: Option<ReadingLevel>)
    ensures r.Some? ==> r.value in levels && r.value.Label() == text
    ensures r.None? ==> forall i :: 0 <= i < |levels| ==> levels[i].Label() != text
  {
    if levels == [] then None
    else if levels[0].Label() == text then Some(levels[0])
    else FirstWithLabel(levels[1..], text)
  }

  function FirstWithName(levels: seq<ReadingLevel>, name: string): (r: Option<ReadingLevel>)
    ensures r.Some? ==> r.value in levels && r.value.Name() == name
    ensures r.None? ==> forall i :: 0 <= i < |levels| ==> levels[i].Name() != name
  {
    if levels == [] then None
    else if levels[0].Name() == name then Some(levels[0])
    else FirstWithName(levels[1..], name)
  }

  /** ReadingLevel.fromLabel: the level whose label equals the argument;
      Failure where Java throws IllegalArgumentException (an unknown label
      or null). */
  function FromLabel(text: Option<string>): (r: Result<ReadingLevel, string>)
    ensures r.Success? ==> text == Some(r.value.Label())
    ensures r.Failure? <==> forall l: ReadingLevel :: text != Some(l.Label())
  {
    if text.None? then Failure("Unknown reading level: null")
    else
      match FirstWithLabel(READING_LEVELS, text.value)
      case Some(l) => Success(l)
      case None =>
        assert forall l: ReadingLevel :: text != Some(l.Label()) by {
          forall l: ReadingLevel ensures text != Some(l.Label()) {
            assert READING_LEVELS[l.Ordinal()] == l;
          }
        }
        Failure("Unknown reading level: " + text.value)
  }

  /** ReadingLevel.valueOf by constant name; None where Java throws. */
  function ValueOf(name: string): (r: Option<ReadingLevel>)
    ensures r.Some? ==> r.value.Name() == name
    ensures r.None? <==> forall l: ReadingLevel :: l.Name() != name
  {
    var r := FirstWithName(READING_LEVELS, name);
    assert r.None? ==> forall l: ReadingLevel :: l.Name() != name by {
      if r.None? {
        forall l: ReadingLevel ensures l.Name() != name {
          assert READING_LEVELS[l.Ordinal()] == l;
        }
      }
    }
    r
  }

  /** Every level's label leads back to it, so labels are pairwise distinct. */
  lemma {:induction false} FromLabelOfLabel(l: ReadingLevel)
    ensures FromLabel(Some(l.Label())) == Success(l)
  {
    var r := FromLabel(Some(l.Label()));
    assert r.Success?;
    match r.value
    case StartFromZero =>
    case ReadBySyllables =>
    case KnowBasics =>
    case ReadWithMistakes =>
    case ReadConfidently =>
  }

  /** Every level's constant name leads back to it. */
  lemma {:induction false} ValueOfName(l: ReadingLevel)
    ensures ValueOf(l.Name()) == Some(l)
  {
    var r := ValueOf(l.Name());
    assert r.Some?;
    match r.value
    case StartFromZero =>
    case ReadBySyllables =>
    case KnowBasics =>
    case ReadWithMistakes =>
    case ReadConfidently =>
  }

  datatype FlowType = Normal | Referral {
    function Name(): string {
      match this
      case Normal => "NORMAL"
      case Referral => "REFERRAL"
    }
  }

  datatype ReferralStatus = NotApplicable | Pending | Counted {
    function Name(): string {
      match this
      case NotApplicable => "NOT_APPLICABLE"
      case Pending => "PENDING"
      case Counted => "COUNTED"
    }
  }

  /** The outcome of a channel-membership check. */
  datatype SubscriptionCheckResult = Subscribed | NotSubscribed | CheckError

  /** The steps of the four registration flows. The flows are: 1 normal
      registration, 2 referral-program offer, 3 referral entry, 4
      registration of a referred user. */
  datatype FlowStep =
    | Idle
    | Flow1WaitIntroContinue
    | Flow1WaitSchoolSubscriptionRecheck
    | Flow1WaitConsentAccept
    | Flow1WaitName
    | Flow1WaitAge
    | Flow1WaitHasChildren
    | Flow1WaitChildrenCount
    | Flow1WaitChildAge
    | Flow1WaitChildrenQuranStudy
    | Flow1WaitPhone
    | Flow1WaitReadingLevel
    | Flow1WaitCourseSubscriptionRecheck
    | Flow1WaitReferralProgramAnnouncement
    | Flow2WaitTerms
    | Flow2WaitLinkRequest
    | Flow3WaitSchoolSubscriptionRecheck
    | Flow3WaitConsentAccept
    | Flow4WaitName
    | Flow4WaitAge
    | Flow4WaitHasChildren
    | Flow4WaitChildrenCount
    | Flow4WaitChildAge
    | Flow4WaitChildrenQuranStudy
    | Flow4WaitPhone
    | Flow4WaitReadingLevel
    | Flow4WaitCourseLinkConfirm
    | Flow4WaitReferralProgramAnnouncement
  {
    function Name(): string {
      match this
      case Idle => "IDLE"
      case Flow1WaitIntroContinue => "FLOW1_WAIT_INTRO_CONTINUE"
      case Flow1WaitSchoolSubscriptionRecheck => "FLOW1_WAIT_SCHOOL_SUBSCRIPTION_RECHECK"
      case Flow1WaitConsentAccept => "FLOW1_WAIT_CONSENT_ACCEPT"
      case Flow1WaitName => "FLOW1_WAIT_NAME"
      case Flow1WaitAge => "FLOW1_WAIT_AGE"
      case Flow1WaitHasChildren => "FLOW1_WAIT_HAS_CHILDREN"
      case Flow1WaitChildrenCount => "FLOW1_WAIT_CHILDREN_COUNT"
      case Flow1WaitChildAge => "FLOW1_WAIT_CHILD_AGE"
      case Flow1WaitChildrenQuranStudy => "FLOW1_WAIT_CHILDREN_QURAN_STUDY"
      case Flow1WaitPhone => "FLOW1_WAIT_PHONE"
      case Flow1WaitReadingLevel => "FLOW1_WAIT_READING_LEVEL"
      case Flow1WaitCourseSubscriptionRecheck => "FLOW1_WAIT_COURSE_SUBSCRIPTION_RECHECK"
      case Flow1WaitReferralProgramAnnouncement => "FLOW1_WAIT_REFERRAL_PROGRAM_ANNOUNCEMENT"
      case Flow2WaitTerms => "FLOW2_WAIT_TERMS"
      case Flow2WaitLinkRequest => "FLOW2_WAIT_LINK_REQUEST"
      case Flow3WaitSchoolSubscriptionRecheck => "FLOW3_WAIT_SCHOOL_SUBSCRIPTION_RECHECK"
      case Flow3WaitConsentAccept => "FLOW3_WAIT_CONSENT_ACCEPT"
      case Flow4WaitName => "FLOW4_WAIT_NAME"
      case Flow4WaitAge => "FLOW4_WAIT_AGE"
      case Flow4WaitHasChildren => "FLOW4_WAIT_HAS_CHILDREN"
      case Flow4WaitChildrenCount => "FLOW4_WAIT_CHILDREN_COUNT"
      case Flow4WaitChildAge => "FLOW4_WAIT_CHILD_AGE"
      case Flow4WaitChildrenQuranStudy => "FLOW4_WAIT_CHILDREN_QURAN_STUDY"
      case Flow4WaitPhone => "FLOW4_WAIT_PHONE"
      case Flow4WaitReadingLevel => "FLOW4_WAIT_READING_LEVEL"
      case Flow4WaitCourseLinkConfirm => "FLOW4_WAIT_COURSE_LINK_CONFIRM"
      case Flow4WaitReferralProgramAnnouncement => "FLOW4_WAIT_REFERRAL_PROGRAM_ANNOUNCEMENT"
    }
  }

  /** A user profile (table users). */
  datatype User = User(
    userId: int,
    telegramFirstName: Option<string>,
    telegramUsername: Option<string>,
    userName: Option<string>,
    age: Option<int>,
    hasChildren: Option<bool>,
    childrenCount: Option<int>,
    childrenAges: Option<string>,
    childrenStudyQuran: Option<bool>,
    phone: Option<string>,
    readingLevel: Option<ReadingLevel>,
    schoolChannelSubscribed: bool,
    courseChannelSubscribed: bool,
    consentGiven: bool,
    registrationCompleted: bool,
    registrationCompletedAt: Option<Instant>,
    referrerUserId: int,
    referralStatus: Option<ReferralStatus>,
    referralCountedAt: Option<Instant>,
    referralPoints: Int32,
    referralLinkCp: Option<string>,
    createdAt: Option<Instant>,
    updatedAt: Option<Instant>)

  /** `new UserEntity()` with its user id set: the field initialisers. */
  function NewUser(userId: int): (u: User)
    ensures u.userId == userId && u.referralPoints == 0 && !u.registrationCompleted
    ensures u.referralStatus == Some(NotApplicable) && u.referralCountedAt == Some(EPOCH)
    ensures u.registrationCompletedAt == Some(EPOCH) && u.createdAt.None?
    ensures u.referrerUserId == 0 && !u.consentGiven && !u.schoolChannelSubscribed && !u.courseChannelSubscribed
    ensures u.referralLinkCp.None? && u.updatedAt.None?
  {
    User(userId, None, None, None, None, None, None, None, None, None, None,
         false, false, false, false, Some(EPOCH), 0, Some(NotApplicable), Some(EPOCH), 0,
         None, None, None)
  }

  /** The columns a stored user row may not leave null. */
  predicate UserColumnsSet(u: User) {
    u.createdAt.Some? && u.updatedAt.Some? && u.registrationCompletedAt.Some?
    && u.referralStatus.Some? && u.referralCountedAt.Some?
  }

  /** @PrePersist of UserEntity: stamps both timestamps with `now` and
      replaces a null completion time, counted time or status by its
      default, leaving every other field alone. */
  function UserOnCreate(u: User, now: Instant): (r: User)
    ensures r.createdAt == Some(now) && r.updatedAt == Some(now)
    ensures UserColumnsSet(r)
    ensures u.registrationCompletedAt.Some? ==> r.registrationCompletedAt == u.registrationCompletedAt
    ensures u.registrationCompletedAt.None? ==> r.registrationCompletedAt == Some(EPOCH)
    ensures u.referralCountedAt.Some? ==> r.referralCountedAt == u.referralCountedAt
    ensures u.referralCountedAt.None? ==> r.referralCountedAt == Some(EPOCH)
    ensures u.referralStatus.Some? ==> r.referralStatus == u.referralStatus
    ensures u.referralStatus.None? ==> r.referralStatus == Some(NotApplicable)
    ensures r.(createdAt := u.createdAt, updatedAt := u.updatedAt,
               registrationCompletedAt := u.registrationCompletedAt,
               referralCountedAt := u.referralCountedAt, referralStatus := u.referralStatus) == u
  {
    u.(createdAt := Some(now), updatedAt := Some(now),
       registrationCompletedAt := Some(u.registrationCompletedAt.GetOr(EPOCH)),
       referralCountedAt := Some(u.referralCountedAt.GetOr(EPOCH)),
       referralStatus := Some(u.referralStatus.GetOr(NotApplicable)))
  }

  /** @PreUpdate of UserEntity: only updatedAt moves. */
  function UserOnUpdate(u: User, now: Instant): (r: User)
    ensures r.updatedAt == Some(now)
    ensures r.(updatedAt := u.updatedAt) == u
    ensures UserColumnsSet(u) ==> UserColumnsSet(r)
  {
    u.(updatedAt := Some(now))
  }

  /** UserEntity.incrementReferralPoints: `referralPoints += 1` on a Java
      int; no other field changes. */
  function IncrementReferralPoints(u: User): (r: User)
    ensures u.referralPoints < 0x7FFF_FFFF ==> r.referralPoints as int == u.referralPoints as int + 1
    ensures u.referralPoints == 0x7FFF_FFFF ==> r.referralPoints == -0x8000_0000
    ensures r.(referralPoints := u.referralPoints) == u
  {
    u.(referralPoints := IncInt32(u.referralPoints))
  }

  /** A user's in-progress registration state (table flow_contexts). */
  datatype FlowContext = FlowContext(
    userId: int,
    telegramFirstName: Option<string>,
    telegramUsername: Option<string>,
    currentStep: Option<FlowStep>,
    flowType: Option<FlowType>,
    userName: Option<string>,
    age: Option<int>,
    hasChildren: Option<bool>,
    childrenCount: Option<int>,
    childrenAges: Option<string>,
    childrenStudyQuran: Option<bool>,
    childrenAgeIndex: Option<int>,
    phone: Option<string>,
    readingLevel: Option<ReadingLevel>,
    consentGiven: bool,
    schoolChannelSubscribed: bool,
    referrerUserId: int,
    referralEntrySource: Option<string>,
    referralEntryAt: Option<Instant>,
    tempTags: Option<string>,
    referralAnnouncementDueAt: Option<Instant>,
    referralAnnouncementSent: bool,
    createdAt: Option<Instant>,
    updatedAt: Option<Instant>)

  /** `new FlowContextEntity()`: IDLE, NORMAL, everything else empty. */
  function NewContext(userId: int): (c: FlowContext)
    ensures c.userId == userId && c.currentStep == Some(Idle) && c.flowType == Some(Normal)
    ensures c.referrerUserId == 0 && !c.referralAnnouncementSent && c.createdAt.None?
  {
    FlowContext(userId, None, None, Some(Idle), Some(Normal), None, None, None, None, None,
                None, None, None, None, false, false, 0, None, None, None, None, false,
                None, None)
  }

  predicate ContextColumnsSet(c: FlowContext) {
    c.createdAt.Some? && c.updatedAt.Some? && c.currentStep.Some? && c.flowType.Some?
  }

  /** @PrePersist of FlowContextEntity: stamps both timestamps and replaces
      a null step by IDLE and a null flow type by NORMAL. */
  function ContextOnCreate(c: FlowContext, now: Instant): (r: FlowContext)
    ensures r.createdAt == Some(now) && r.updatedAt == Some(now)
    ensures ContextColumnsSet(r)
    ensures c.currentStep.Some? ==> r.currentStep == c.currentStep
    ensures c.currentStep.None? ==> r.currentStep == Some(Idle)
    ensures c.flowType.Some? ==> r.flowType == c.flowType
    ensures c.flowType.None? ==> r.flowType == Some(Normal)
    ensures r.(createdAt := c.createdAt, updatedAt := c.updatedAt,
               currentStep := c.currentStep, flowType := c.flowType) == c
  {
    c.(createdAt := Some(now), updatedAt := Some(now),
       currentStep := Some(c.currentStep.GetOr(Idle)), flowType := Some(c.flowType.GetOr(Normal)))
  }

  /** @PreUpdate of FlowContextEntity: only updatedAt moves. */
  function ContextOnUpdate(c: FlowContext, now: Instant): (r: FlowContext)
    ensures r.updatedAt == Some(now)
    ensures r.(updatedAt := c.updatedAt) == c
    ensures ContextColumnsSet(c) ==> ContextColumnsSet(r)
  {
    c.(updatedAt := Some(now))
  }

  /** One row of the referral ledger (table referral_link_usages). The
      mandatory columns (referrer, invitee, idempotency key, trigger source,
      triggeredAt) are not optional here. */
  datatype ReferralLinkUsage = ReferralLinkUsage(
    referralEventId: EventId,
    referralLink: Option<string>,
    referrerUserId: int,
    inviteeUserId: int,
    idempotencyKey: string,
    alreadyCounted: bool,
    countedAt: Option<Instant>,
    triggerSource: string,
    triggeredAt: Instant,
    createdAt: Option<Instant>)

  /** @PrePersist of ReferralLinkUsageEntity: stamps createdAt and replaces a
      null countedAt by EPOCH. There is no update hook. */
  function UsageOnCreate(u: ReferralLinkUsage, now: Instant): (r: ReferralLinkUsage)
    ensures r.createdAt == Some(now)
    ensures u.countedAt.Some? ==> r.countedAt == u.countedAt
    ensures u.countedAt.None? ==> r.countedAt == Some(EPOCH)
    ensures r.(createdAt := u.createdAt, countedAt := u.countedAt) == u
  {
    u.(createdAt := Some(now), countedAt := Some(u.countedAt.GetOr(EPOCH)))
  }

  /** Creating then updating a row keeps its creation time, moves only the
      update time, and leaves every non-null column set. */
  lemma UserCreateThenUpdate(u: User, t0: Instant, t1: Instant)
    ensures var r := UserOnUpdate(UserOnCreate(u, t0), t1);
      r.createdAt == Some(t0) && r.updatedAt == Some(t1) && UserColumnsSet(r)
      && r.referralStatus == Some(u.referralStatus.GetOr(NotApplicable))
  {
  }

  lemma ContextCreateThenUpdate(c: FlowContext, t0: Instant, t1: Instant)
    ensures var r := ContextOnUpdate(ContextOnCreate(c, t0), t1);
      r.createdAt == Some(t0) && r.updatedAt == Some(t1) && ContextColumnsSet(r)
      && r.currentStep == Some(c.currentStep.GetOr(Idle))
  {
  }
}
