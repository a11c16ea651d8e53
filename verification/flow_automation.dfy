/** The engine's other two entry points: the course-channel membership
    trigger (handleCourseChannelSubscriptionConfirmed) and the scheduled
    tick (processScheduledAutomations) with its two sweeps, the deferred
    referral-programme announcements and the pending referral awards. */
module FlowAutomation {
  import opened Wrappers
  import opened Domain
  import opened Persistence
  import opened Messages
  import opened FlowEngine
  import opened JavaText
  import opened Seqs

  // ---- Membership trigger --------------------------------------------------

  /** handleCourseChannelSubscriptionConfirmed: only a SUBSCRIBED answer
      for the user runs the course confirmation, with the stored context. */
  function HandleCourseChannelSubscriptionConfirmed(st: Store, uid: int, env: Env): (o: Outcome)
    requires Keyed(st)
    ensures Keyed(o.store)
    ensures env.oracle.course(uid) != Subscribed || uid !in st.users ==> o == Outcome(st, [])
    ensures o.store.users.Keys == st.users.Keys && st.tags.Keys <= o.store.tags.Keys
    ensures forall k :: k in st.users ==> SameProfile(o.store.users[k], st.users[k])
    ensures env.oracle.course(uid) == Subscribed && uid in st.users ==>
      o.store.users[uid].courseChannelSubscribed && HasTag(o.store, uid, TAG_COURSE_CHANNEL_CONFIRMED)
    ensures env.oracle.course(uid) == Subscribed && Advances(st, uid) ==>
      o.store.contexts == st.contexts[uid := StartFlow2(st.contexts[uid])]
      && |o.messages| >= 1 && o.messages[|o.messages| - 1] == ReferralProgramIntroMessage(uid)
    ensures !Advances(st, uid) ==> o.store.contexts == st.contexts
    ensures forall m :: m in o.messages ==> m == ReferralProgramIntroMessage(uid) || m.text.ReferrerCredited?
  {
    if env.oracle.course(uid) != Subscribed then Outcome(st, [])
    else
      SourcesClean();
      var conf := ConfirmStored(st, uid, SOURCE_MEMBERSHIP_UPDATE, env);
      Outcome(conf.st, conf.out)
  }

  /** Whether the course confirmation moves the user's stored context on:
      a stored user whose stored context waits for the course. */
  predicate Advances(st: Store, uid: int) {
    uid in st.users && uid in st.contexts && AwaitsCourse(st.contexts[uid])
  }

  /** The course confirmation with the stored context, if there is one.
      Only a waiting stored context changes, to FLOW2 with the
      announcement as the last message. */
  function ConfirmStored(st: Store, uid: int, source: string, env: Env): (r: Effect)
    requires Keyed(st) && !IsBlank(source)
    ensures Keyed(r.st)
    ensures uid !in st.users ==> r == Effect(st, [])
    ensures r.st.users.Keys == st.users.Keys && st.tags.Keys <= r.st.tags.Keys
    ensures forall k :: k in st.users ==> SameProfile(r.st.users[k], st.users[k])
    ensures uid in st.users ==>
      r.st.users[uid].courseChannelSubscribed && HasTag(r.st, uid, TAG_COURSE_CHANNEL_CONFIRMED)
    ensures Advances(st, uid) ==>
      r.st.contexts == st.contexts[uid := StartFlow2(st.contexts[uid])]
      && |r.out| >= 1 && r.out[|r.out| - 1] == ReferralProgramIntroMessage(uid)
    ensures !Advances(st, uid) ==> r.st.contexts == st.contexts
    ensures forall m :: m in r.out ==> m == ReferralProgramIntroMessage(uid) || m.text.ReferrerCredited?
  {
    if Advances(st, uid) then
      var c := ConfirmCourseWith(st, st.contexts[uid], source, env);
      Effect(c.st, c.out)
    else ConfirmCourse(st, uid, source, env)
  }

  // ---- Deferred announcements ----------------------------------------------

  /** isWaitingForReferralProgramAnnouncement. */
  predicate WaitsForAnnouncement(step: Option<FlowStep>) {
    step == Some(Flow1WaitReferralProgramAnnouncement) || step == Some(Flow4WaitReferralProgramAnnouncement)
  }

  /** The due query: not yet sent and due at or before now. A context
      without a due time is never due (SQL compares NULL as unknown). */
  predicate IsDue(c: FlowContext, now: Instant) {
    !c.referralAnnouncementSent && c.referralAnnouncementDueAt.Some? && c.referralAnnouncementDueAt.value <= now
  }

  /** The ids of the due contexts, in the model's scan order. */
  function DueIds(st: Store, now: Instant): (ids: seq<int>)
    ensures forall k :: k in ids <==> k in st.contexts && IsDue(st.contexts[k], now)
    ensures forall a, b :: 0 <= a < b < |ids| ==> ids[a] < ids[b]
  {
    Ascending(set k | k in st.contexts && IsDue(st.contexts[k], now))
  }

  /** One due context of processDueReferralAnnouncements. A context that
      no longer waits is marked sent without a message; a waiting one whose
      user is not (yet) SUBSCRIBED to the course is due again after the
      retry interval; otherwise the course is confirmed (without the
      context), FLOW2 starts with its announcement and the context is
      marked sent. The context is saved in every case. */
  function ProcessDue(st: Store, id: int, env: Env): (r: Effect)
    requires Keyed(st) && id in st.contexts
    ensures r.st.contexts.Keys == st.contexts.Keys && Keyed(r.st)
    ensures !IsDue(r.st.contexts[id], env.now)
    ensures !WaitsForAnnouncement(st.contexts[id].currentStep) ==>
      r == Effect(Resave(st, st.contexts[id].(referralAnnouncementDueAt := None, referralAnnouncementSent := true)), [])
    ensures WaitsForAnnouncement(st.contexts[id].currentStep) && env.oracle.course(id) != Subscribed ==>
      r == Effect(Resave(st, st.contexts[id].(referralAnnouncementDueAt := Some(env.now + RetryDelay(env.cfg)),
                                              referralAnnouncementSent := false)), [])
    ensures WaitsForAnnouncement(st.contexts[id].currentStep) && env.oracle.course(id) == Subscribed ==>
      r == Announce(st, st.contexts[id], env)
    ensures forall m :: m in r.out ==> m == ReferralProgramIntroMessage(id) || m.text.ReferrerCredited?
    ensures Swept(st, r.st, [id])
  {
    var c := st.contexts[id];
    if !WaitsForAnnouncement(c.currentStep) then
      Effect(Resave(st, c.(referralAnnouncementDueAt := None, referralAnnouncementSent := true)), [])
    else if env.oracle.course(id) != Subscribed then
      Effect(Resave(st, c.(referralAnnouncementDueAt := Some(env.now + RetryDelay(env.cfg)), referralAnnouncementSent := false)), [])
    else Announce(st, c, env)
  }

  /** A stored context saved again: the row is replaced as it is. */
  function Resave(st: Store, c: FlowContext): (r: Store)
    requires Keyed(st) && c.userId in st.contexts
    ensures r.users == st.users && r.usages == st.usages && r.tags == st.tags
    ensures r.contexts == st.contexts[c.userId := c] && Keyed(r)
    ensures Swept(st, r, [c.userId])
  {
    SaveContext(st, c, EPOCH)
  }

  /** The announcement of a waiting context whose user is SUBSCRIBED: the
      course confirmed for the user, then FLOW2 started with its intro and
      the context marked sent. */
  function Announce(st: Store, c: FlowContext, env: Env): (r: Effect)
    requires Keyed(st) && c.userId in st.contexts
    ensures r.st.contexts == st.contexts[c.userId := StartFlow2(c).(referralAnnouncementDueAt := None,
                                                                    referralAnnouncementSent := true)]
    ensures Keyed(r.st)
    ensures r.st.users.Keys == st.users.Keys && st.tags.Keys <= r.st.tags.Keys
    ensures forall k :: k in st.users ==> SameProfile(r.st.users[k], st.users[k])
    ensures c.userId in st.users ==>
      r.st.users[c.userId].courseChannelSubscribed && HasTag(r.st, c.userId, TAG_COURSE_CHANNEL_CONFIRMED)
    ensures !IsBlank(SOURCE_SCHEDULED)
      && r.out == ConfirmCourse(st, c.userId, SOURCE_SCHEDULED, env).out + [ReferralProgramIntroMessage(c.userId)]
    ensures Swept(st, r.st, [c.userId])
  {
    SourcesClean();
    var conf := ConfirmCourse(st, c.userId, SOURCE_SCHEDULED, env);
    Effect(Resave(conf.st, StartFlow2(c).(referralAnnouncementDueAt := None, referralAnnouncementSent := true)),
           conf.out + [ReferralProgramIntroMessage(c.userId)])
  }

  /** processDueReferralAnnouncements over the ids fetched at the start of
      the sweep. Afterwards none of them is due any more, and every other
      context is as it was. */
  function DueSweep(st: Store, ids: seq<int>, env: Env): (r: Effect)
    requires Keyed(st)
    requires forall k :: k in ids ==> k in st.contexts
    requires forall a, b :: 0 <= a < b < |ids| ==> ids[a] != ids[b]
    ensures Swept(st, r.st, ids)
    ensures forall k :: k in ids ==> !IsDue(r.st.contexts[k], env.now)
    ensures forall m :: m in r.out ==> m.text == ReferralProgramIntro || m.text.ReferrerCredited?
    decreases |ids|
  {
    if ids == [] then Effect(st, [])
    else
      var e := ProcessDue(st, ids[0], env);
      var rest := DueSweep(e.st, ids[1..], env);
      SweptTransitive(st, e.st, rest.st, [ids[0]], ids[1..]);
      HeadTail(ids);
      forall k | k in ids
        ensures !IsDue(rest.st.contexts[k], env.now)
      {
        if k == ids[0] {
          assert ids[0] !in ids[1..];
        } else {
          assert k in ids[1..];
        }
      }
      Effect(rest.st, e.out + rest.out)
  }

  /** What a sweep step leaves alone: the rows present stay present, the
      profiles keep their SameProfile shape, no tag is lost, and only the
      contexts of the listed ids may change. */
  predicate Swept(st: Store, r: Store, ids: seq<int>) {
    Keyed(r) && r.users.Keys == st.users.Keys && r.contexts.Keys == st.contexts.Keys && st.tags.Keys <= r.tags.Keys
    && (forall k :: k in st.contexts && k !in ids ==> r.contexts[k] == st.contexts[k])
    && (forall k :: k in st.users ==> SameProfile(r.users[k], st.users[k]))
  }

  /** A step that keeps every user row's shape and changes at most the
      stored context of one id is a sweep step over that id. */
  lemma SweptOne(st: Store, r: Store, id: int)
    requires Keyed(r) && r.users.Keys == st.users.Keys && st.tags.Keys <= r.tags.Keys
    requires forall k :: k in st.users ==> SameProfile(r.users[k], st.users[k])
    requires r.contexts == st.contexts || (id in st.contexts && id in r.contexts && r.contexts == st.contexts[id := r.contexts[id]])
    ensures Swept(st, r, [id])
  {
  }

  /** Two sweep steps in a row are one sweep step over both id lists. */
  lemma SweptTransitive(a: Store, b: Store, c: Store, x: seq<int>, y: seq<int>)
    requires Swept(a, b, x) && Swept(b, c, y)
    ensures Swept(a, c, x + y)
  {
    forall k | k in a.users
      ensures SameProfile(c.users[k], a.users[k])
    {
      SameProfileTransitive(c.users[k], b.users[k], a.users[k]);
    }
  }

  // ---- Pending awards ------------------------------------------------------

  /** The pending-award query: a registered user whose referral is still
      PENDING. */
  predicate AwaitsAward(u: User) {
    u.referralStatus == Some(Pending) && u.registrationCompleted
  }

  function PendingIds(st: Store): (ids: seq<int>)
    ensures forall k :: k in ids <==> k in st.users && AwaitsAward(st.users[k])
    ensures forall a, b :: 0 <= a < b < |ids| ==> ids[a] < ids[b]
  {
    Ascending(set k | k in st.users && AwaitsAward(st.users[k]))
  }

  /** Whether processPendingReferralAwards runs the course confirmation
      for an invitee: a positive referrer, and the course flag already set
      or a SUBSCRIBED answer (asked only when the flag is not set). */
  predicate Confirmable(u: User, env: Env) {
    u.referrerUserId > 0 && (u.courseChannelSubscribed || env.oracle.course(u.userId) == Subscribed)
  }

  /** One invitee of processPendingReferralAwards: the course confirmation
      with the stored context, or nothing at all. */
  function ProcessPending(st: Store, id: int, env: Env): (r: Effect)
    requires Keyed(st) && id in st.users
    ensures Keyed(r.st) && r.st.users.Keys == st.users.Keys
    ensures !Confirmable(st.users[id], env) ==> r == Effect(st, [])
    ensures Confirmable(st.users[id], env) ==>
      r.st.users[id].courseChannelSubscribed && HasTag(r.st, id, TAG_COURSE_CHANNEL_CONFIRMED)
    ensures Confirmable(st.users[id], env) && Advances(st, id) ==>
      r.st.contexts == st.contexts[id := StartFlow2(st.contexts[id])]
      && |r.out| >= 1 && r.out[|r.out| - 1] == ReferralProgramIntroMessage(id)
    ensures !(Confirmable(st.users[id], env) && Advances(st, id)) ==> r.st.contexts == st.contexts
    ensures forall m :: m in r.out ==> m == ReferralProgramIntroMessage(id) || m.text.ReferrerCredited?
    ensures Swept(st, r.st, [id])
  {
    var u := st.users[id];
    if !Confirmable(u, env) then Effect(st, [])
    else
      SourcesClean();
      var e := ConfirmStored(st, id, SOURCE_PERIODIC_RECHECK, env);
      SweptOne(st, e.st, id);
      e
  }

  /** processPendingReferralAwards over the ids fetched at the start of
      the sweep. Every confirmable invitee ends up tagged as confirmed. */
  function PendingSweep(st: Store, ids: seq<int>, env: Env): (r: Effect)
    requires Keyed(st)
    requires forall k :: k in ids ==> k in st.users
    ensures Swept(st, r.st, ids)
    ensures forall k :: k in ids && Confirmable(st.users[k], env) ==> HasTag(r.st, k, TAG_COURSE_CHANNEL_CONFIRMED)
    ensures forall m :: m in r.out ==> m.text == ReferralProgramIntro || m.text.ReferrerCredited?
    decreases |ids|
  {
    if ids == [] then Effect(st, [])
    else
      var e := ProcessPending(st, ids[0], env);
      var rest := PendingSweep(e.st, ids[1..], env);
      SweptTransitive(st, e.st, rest.st, [ids[0]], ids[1..]);
      HeadTail(ids);
      forall k | k in ids && Confirmable(st.users[k], env)
        ensures HasTag(rest.st, k, TAG_COURSE_CHANNEL_CONFIRMED)
      {
        if k != ids[0] {
          assert k in ids[1..];
          ConfirmableKept(st.users[k], e.st.users[k], env);
        }
      }
      Effect(rest.st, e.out + rest.out)
  }

  /** The course flag never goes back and the referrer never changes, so
      an invitee once confirmable stays confirmable. */
  lemma ConfirmableKept(a: User, b: User, env: Env)
    requires SameProfile(b, a) && Confirmable(a, env)
    ensures Confirmable(b, env)
  {
  }

  // ---- The tick ------------------------------------------------------------

  /** processScheduledAutomations: the due announcements, then the pending
      awards, each over the rows its query returns when it starts. */
  function ProcessScheduledAutomations(st: Store, env: Env): (o: Outcome)
    requires Keyed(st)
    ensures Keyed(o.store)
    ensures o.store.users.Keys == st.users.Keys && o.store.contexts.Keys == st.contexts.Keys
    ensures st.tags.Keys <= o.store.tags.Keys
    ensures forall k :: k in st.users ==> SameProfile(o.store.users[k], st.users[k])
    ensures forall m :: m in o.messages ==> m.text == ReferralProgramIntro || m.text.ReferrerCredited?
  {
    var due := DueSweep(st, DueIds(st, env.now), env);
    var pending := PendingSweep(due.st, PendingIds(due.st), env);
    SweptTransitive(st, due.st, pending.st, DueIds(st, env.now), PendingIds(due.st));
    Outcome(pending.st, due.out + pending.out)
  }
}
