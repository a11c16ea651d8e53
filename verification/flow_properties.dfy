/** Properties of whole updates through handleUpdate: the empty update,
    "/start" followed by an argument, a step-guarded button pressed in the
    wrong step, and the reading-level keyboard the bot sends. */
module FlowProperties {
  import opened Wrappers
  import opened Domain
  import opened Persistence
  import opened Messages
  import opened FlowInput
  import opened JavaText
  import opened Decimal
  import opened FlowEngine

  // ---- The empty update ----------------------------------------------------

  /** An update without text, callback or contact gets exactly one nudge
      towards /start; the sender's context is saved with only the name
      refresh, so its step does not move, and no profile, ledger row or
      tag changes. */
  lemma EmptyUpdateNudges(st: Store, req: Request, env: Env)
    requires Keyed(st)
    requires Normalize(req.text).None? && Normalize(req.callbackData).None? && req.contact.None?
    ensures HandleUpdate(st, req, env) ==
      Outcome(SaveContext(st, Refreshed(st, req), env.now), [BotMessage(req.userId, StartNudge, [])])
    ensures HandleUpdate(st, req, env).store.contexts[req.userId].currentStep ==
      LoadContext(st, req.userId, req.firstName).currentStep
  {
  }

  // ---- "/start <argument>" -------------------------------------------------

  /** "/start" followed by one word. A word that is not a long, the
      user's own id or an unknown referrer make the link unusable: the
      context goes idle on the normal track without a referrer. A user
      already referred is told so and goes idle too. Otherwise the
      referrer is recorded and the referral track waits for the school
      subscription. Exactly one message goes to the sender and nothing
      but the sender's context is written. */
  lemma StartWithArgument(st: Store, req: Request, env: Env, arg: string)
    requires Keyed(st)
    requires Normalize(req.text) == Some("/start " + arg) && arg != [] && SpaceFree(arg)
    ensures var o := HandleUpdate(st, req, env);
      req.userId in o.store.contexts && |o.messages| == 1 && o.messages[0].recipient == req.userId
      && o.store.users == st.users && o.store.usages == st.usages && o.store.tags == st.tags
      && var c := o.store.contexts[req.userId];
      (ParseLong(arg).None? ==>
            c.currentStep == Some(Idle) && c.flowType == Some(Normal) && c.referrerUserId == 0
            && o.messages[0].text == ReferralLinkUnusable)
      && (ParseLong(arg).Some? && (ParseLong(arg).value == req.userId || ParseLong(arg).value !in st.users) ==>
            c.currentStep == Some(Idle) && c.flowType == Some(Normal) && c.referrerUserId == 0
            && o.messages[0].text == ReferralLinkUnusable)
      && (ParseLong(arg).Some? && ParseLong(arg).value != req.userId && ParseLong(arg).value in st.users
          && AlreadyReferred(st, req.userId) ==>
            c.currentStep == Some(Idle) && c.flowType == Some(Normal) && c.referrerUserId == 0
            && o.messages[0].text == ReferralLinkUsed)
      && (ParseLong(arg).Some? && ParseLong(arg).value != req.userId && ParseLong(arg).value in st.users
          && !AlreadyReferred(st, req.userId) ==>
            c.currentStep == Some(Flow3WaitSchoolSubscriptionRecheck) && c.flowType == Some(Referral)
            && c.referrerUserId == ParseLong(arg).value && o.messages[0].text == ReferralWelcome)
  {
    var t0 := Turn(Refreshed(st, req), st, []);
    StartCommandWords(req, arg);
    UpdateRunsStart(st, req, env, arg);
    StartOutcomes(t0, req, env, arg);
  }

  /** An update whose text is "/start" and one word runs handleStartCommand
      and saves the context it leaves. */
  lemma UpdateRunsStart(st: Store, req: Request, env: Env, arg: string)
    requires Keyed(st)
    requires Normalize(req.text) == Some("/start " + arg) && arg != [] && SpaceFree(arg)
    ensures var r := HandleStartCommand(Turn(Refreshed(st, req), st, []), req, "/start " + arg, env);
      r.st == st && HandleUpdate(st, req, env) == Outcome(SaveContext(st, r.ctx, env.now), r.out)
  {
    StartCommandWords(req, arg);
    var t0 := Turn(Refreshed(st, req), st, []);
    assert Dispatch(t0, req, Classify(req), env) == HandleStartCommand(t0, req, "/start " + arg, env);
  }

  /** The four outcomes of "/start" and one word, on the saved context. */
  lemma StartOutcomes(t: Turn, req: Request, env: Env, arg: string)
    requires Keyed(t.st) && t.ctx.userId == req.userId && t.out == []
    requires arg != [] && SpaceFree(arg) && Words("/start " + arg) == ["/start", arg]
    ensures var r := HandleStartCommand(t, req, "/start " + arg, env);
      r.ctx.userId == req.userId && |r.out| == 1 && r.out[0].recipient == req.userId
      && var c := Persisted(t.st, r.ctx, env.now);
      (ParseLong(arg).None? ==>
            c.currentStep == Some(Idle) && c.flowType == Some(Normal) && c.referrerUserId == 0
            && r.out[0].text == ReferralLinkUnusable)
      && (ParseLong(arg).Some? && (ParseLong(arg).value == req.userId || ParseLong(arg).value !in t.st.users) ==>
            c.currentStep == Some(Idle) && c.flowType == Some(Normal) && c.referrerUserId == 0
            && r.out[0].text == ReferralLinkUnusable)
      && (ParseLong(arg).Some? && ParseLong(arg).value != req.userId && ParseLong(arg).value in t.st.users
          && AlreadyReferred(t.st, req.userId) ==>
            c.currentStep == Some(Idle) && c.flowType == Some(Normal) && c.referrerUserId == 0
            && r.out[0].text == ReferralLinkUsed)
      && (ParseLong(arg).Some? && ParseLong(arg).value != req.userId && ParseLong(arg).value in t.st.users
          && !AlreadyReferred(t.st, req.userId) ==>
            c.currentStep == Some(Flow3WaitSchoolSubscriptionRecheck) && c.flowType == Some(Referral)
            && c.referrerUserId == ParseLong(arg).value && r.out[0].text == ReferralWelcome)
  {
  }

  /** "/start" and one word is classified as a start command of two words. */
  lemma StartCommandWords(req: Request, arg: string)
    requires Normalize(req.text) == Some("/start " + arg) && arg != [] && SpaceFree(arg)
    ensures Classify(req) == StartCommand("/start " + arg)
    ensures Words("/start " + arg) == ["/start", arg]
  {
    StartsWithStart(arg);
    var command := "/start " + arg;
    assert command == "/start" + " " + arg;
    StartIsWord();
    TwoWords("/start", arg);
  }

  lemma StartIsWord()
    ensures SpaceFree("/start")
  {
    forall j | 0 <= j < 6 ensures !IsRegexSpace("/start"[j]) {
      assert "/start"[j] in {'/', 's', 't', 'a', 'r'};
    }
  }

  lemma StartsWithStart(arg: string)
    ensures StartsWith("/start " + arg, "/start")
  {
    assert ("/start " + arg)[..6] == "/start";
  }

  /** A printed number is one word. */
  lemma ShowIsWord(n: int)
    ensures Show(n) != [] && SpaceFree(Show(n))
  {
  }

  /** The text a referral link opens the chat with: "/start" and the
      referrer's id, printed as a decimal. A known referrer other than the
      sender, for a user not yet referred, is recorded on the referral
      track. */
  lemma ReferralLinkEntry(st: Store, req: Request, env: Env, referrerId: int)
    requires Keyed(st) && IsLong(referrerId)
    requires Normalize(req.text) == Some("/start " + Show(referrerId))
    requires referrerId != req.userId && referrerId in st.users && !AlreadyReferred(st, req.userId)
    ensures var o := HandleUpdate(st, req, env);
      req.userId in o.store.contexts && |o.messages| == 1 && o.messages[0].text == ReferralWelcome
      && var c := o.store.contexts[req.userId];
      c.currentStep == Some(Flow3WaitSchoolSubscriptionRecheck) && c.flowType == Some(Referral)
      && c.referrerUserId == referrerId
  {
    var arg := Show(referrerId);
    ParseLongShow(referrerId);
    ShowIsWord(referrerId);
    StartCommandWords(req, arg);
    UpdateRunsStart(st, req, env, arg);
    StartOutcomes(Turn(Refreshed(st, req), st, []), req, env, arg);
  }

  // ---- Buttons pressed in the wrong step ----------------------------------

  /** The step-guarded buttons that are ignored in silence outside their
      steps. */
  const SILENT_CALLBACKS: set<string> := {
    FLOW1_INTRO_CONTINUE, FLOW1_CONSENT_CONTINUE, FLOW1_COURSE_RECHECK, FLOW3_CONSENT_CONTINUE,
    FLOW4_COURSE_CLICK_CONFIRMED, FLOW1_HAS_CHILDREN_YES, FLOW1_HAS_CHILDREN_NO, FLOW4_HAS_CHILDREN_YES,
    FLOW4_HAS_CHILDREN_NO, FLOW1_CHILDREN_STUDY_YES, FLOW1_CHILDREN_STUDY_NO, FLOW4_CHILDREN_STUDY_YES,
    FLOW4_CHILDREN_STUDY_NO}

  /** The steps in which a silent button is acted upon. */
  function AcceptingSteps(callback: string): (steps: set<Option<FlowStep>>)
    requires callback in SILENT_CALLBACKS
    ensures steps != {}
  {
    if callback == FLOW1_INTRO_CONTINUE then {Some(Flow1WaitIntroContinue)}
    else if callback == FLOW1_CONSENT_CONTINUE then {Some(Flow1WaitConsentAccept)}
    else if callback == FLOW1_COURSE_RECHECK then {Some(Flow1WaitCourseSubscriptionRecheck)}
    else if callback == FLOW3_CONSENT_CONTINUE then {Some(Flow3WaitConsentAccept)}
    else if callback == FLOW4_COURSE_CLICK_CONFIRMED then {Some(Flow4WaitCourseLinkConfirm)}
    else if callback == FLOW1_HAS_CHILDREN_YES || callback == FLOW1_HAS_CHILDREN_NO then
      {Some(Flow1WaitHasChildren), Some(Flow1WaitChildrenCount)}
    else if callback == FLOW4_HAS_CHILDREN_YES || callback == FLOW4_HAS_CHILDREN_NO then
      {Some(Flow4WaitHasChildren), Some(Flow4WaitChildrenCount)}
    else if callback == FLOW1_CHILDREN_STUDY_YES || callback == FLOW1_CHILDREN_STUDY_NO then
      {Some(Flow1WaitChildrenQuranStudy)}
    else {Some(Flow4WaitChildrenQuranStudy)}
  }

  /** No silent button carries a reading-level prefix. */
  lemma SilentNotLevel(callback: string)
    requires callback in SILENT_CALLBACKS
    ensures !StartsWith(callback, FLOW1_LEVEL_PREFIX) && !StartsWith(callback, FLOW4_LEVEL_PREFIX)
  {
    assert |callback| > 6 && callback[6] != 'L';
  }

  /** A silent button outside its steps: nothing is sent and the update
      only saves the sender's refreshed context. */
  lemma StaleSilentButton(st: Store, req: Request, env: Env)
    requires Keyed(st)
    requires Classify(req).CallbackPressed? && Classify(req).data in SILENT_CALLBACKS
    requires Refreshed(st, req).currentStep !in AcceptingSteps(Classify(req).data)
    ensures HandleUpdate(st, req, env) == Outcome(SaveContext(st, Refreshed(st, req), env.now), [])
  {
    var cb := Classify(req).data;
    var t0 := Turn(Refreshed(st, req), st, []);
    SilentNotLevel(cb);
    if cb in FLOW1_SILENT {
      SilentFlow1(t0, req, cb, env);
    } else {
      SilentLater(t0, req, cb, env);
    }
    assert HandleCallback(t0, req, cb, env) == t0;
    assert Dispatch(t0, req, Classify(req), env) == t0;
  }

  /** The silent buttons of the normal track's first part. */
  const FLOW1_SILENT: set<string> := {
    FLOW1_INTRO_CONTINUE, FLOW1_CONSENT_CONTINUE, FLOW1_COURSE_RECHECK, FLOW1_HAS_CHILDREN_YES,
    FLOW1_HAS_CHILDREN_NO, FLOW1_CHILDREN_STUDY_YES, FLOW1_CHILDREN_STUDY_NO}

  /** A first-part silent button outside its steps leaves the turn as it
      was. */
  lemma SilentFlow1(t: Turn, req: Request, callback: string, env: Env)
    requires t.ctx.userId == req.userId
    requires callback in FLOW1_SILENT && t.ctx.currentStep !in AcceptingSteps(callback)
    ensures Flow1Callback(t, req, callback, env) == t
  {
    var uid := req.userId;
    if callback == FLOW1_INTRO_CONTINUE {
      assert OnFlow1IntroContinue(t, uid) == t;
    } else if callback == FLOW1_CONSENT_CONTINUE {
      assert OnFlow1ConsentContinue(t, req) == t;
    } else if callback == FLOW1_COURSE_RECHECK {
      assert OnFlow1CourseRecheck(t, uid, env) == t;
    } else if callback == FLOW1_HAS_CHILDREN_YES || callback == FLOW1_HAS_CHILDREN_NO {
      assert OnHasChildren(t, uid, callback == FLOW1_HAS_CHILDREN_YES, Track1) == t;
    } else {
      assert OnChildrenStudy(t, uid, callback == FLOW1_CHILDREN_STUDY_YES, Track1) == t;
    }
  }

  /** A later silent button passes the first-part dispatch and, outside
      its steps, leaves the turn as it was. */
  lemma SilentLater(t: Turn, req: Request, callback: string, env: Env)
    requires t.ctx.userId == req.userId
    requires callback in SILENT_CALLBACKS - FLOW1_SILENT && t.ctx.currentStep !in AcceptingSteps(callback)
    ensures Flow1Callback(t, req, callback, env) == t
  {
    PastFlow1(t, req, callback, env);
    assert LaterCallback(t, req, callback, env) == t;
  }

  /** A button whose track digit is not 1 passes the first-part dispatch
      untouched. */
  lemma PastFlow1(t: Turn, req: Request, callback: string, env: Env)
    requires t.ctx.userId == req.userId && |callback| > 4 && callback[4] != '1'
    ensures Flow1Callback(t, req, callback, env) == LaterCallback(t, req, callback, env)
  {
    assert FLOW1_INTRO_CONTINUE[4] == FLOW1_SCHOOL_RECHECK[4] == FLOW1_CONSENT_CONTINUE[4] == '1';
    assert FLOW1_COURSE_RECHECK[4] == FLOW1_HAS_CHILDREN_YES[4] == FLOW1_HAS_CHILDREN_NO[4] == '1';
    assert FLOW1_CHILDREN_STUDY_YES[4] == FLOW1_CHILDREN_STUDY_NO[4] == '1';
  }

  /** The terms button outside the terms step only redirects to /start. */
  lemma StaleTermsButton(st: Store, req: Request, env: Env)
    requires Keyed(st)
    requires Classify(req) == CallbackPressed(FLOW2_TERMS) && Refreshed(st, req).currentStep != Some(Flow2WaitTerms)
    ensures HandleUpdate(st, req, env) ==
      Outcome(SaveContext(st, Refreshed(st, req), env.now), [BotMessage(req.userId, RestartHint, [])])
  {
    var t0 := Turn(Refreshed(st, req), st, []);
    UpdateRunsCallback(st, req, env, FLOW2_TERMS);
    TermsCallback(t0, req, env);
  }

  /** handleCallback sends the terms button to onFlow2Terms. */
  lemma TermsCallback(t: Turn, req: Request, env: Env)
    requires t.ctx.userId == req.userId
    ensures HandleCallback(t, req, FLOW2_TERMS, env) == OnFlow2Terms(t, req.userId)
  {
    PastFlow1(t, req, FLOW2_TERMS, env);
    assert FLOW2_TERMS[6] != 'L';
  }

  /** A pressed button runs handleCallback on the refreshed context, and
      the update saves the context it leaves. */
  lemma UpdateRunsCallback(st: Store, req: Request, env: Env, data: string)
    requires Keyed(st) && Classify(req) == CallbackPressed(data)
    ensures var r := HandleCallback(Turn(Refreshed(st, req), st, []), req, data, env);
      HandleUpdate(st, req, env) == Outcome(SaveContext(r.st, r.ctx, env.now), r.out)
  {
    var t0 := Turn(Refreshed(st, req), st, []);
    assert Dispatch(t0, req, Classify(req), env) == HandleCallback(t0, req, data, env);
  }

  /** The two reading-level prefixes exclude each other. */
  lemma PrefixesDiffer(callback: string)
    ensures !(StartsWith(callback, FLOW1_LEVEL_PREFIX) && StartsWith(callback, FLOW4_LEVEL_PREFIX))
  {
  }

  /** A reading-level button of either track outside its level step only
      asks to complete the previous steps. */
  lemma StaleLevelButton(st: Store, req: Request, env: Env, track: Track)
    requires Keyed(st)
    requires Classify(req).CallbackPressed? && StartsWith(Classify(req).data, track.LevelPrefix())
    requires Refreshed(st, req).currentStep != Some(track.LevelStep())
    ensures HandleUpdate(st, req, env) ==
      Outcome(SaveContext(st, Refreshed(st, req), env.now), [BotMessage(req.userId, CompletePreviousSteps, [])])
  {
    PrefixesDiffer(Classify(req).data);
  }

  // ---- The reading-level keyboard ------------------------------------------

  /** Every button of the reading-level keyboard carries its track's
      prefix, and pressing it selects the level it is captioned with. */
  lemma LevelButtonRoundTrip(track: Track, i: int)
    requires 0 <= i < |READING_LEVELS|
    ensures var b := LevelButtons(track.LevelPrefix())[i];
      b.text == READING_LEVELS[i].Label() && b.buttonType == Callback
      && b.value == Some(LevelCallback(track, READING_LEVELS[i]))
      && StartsWith(b.value.value, track.LevelPrefix())
      && ParseReadingLevel(b.value.value, track.LevelPrefix()) == Some(READING_LEVELS[i])
  {
    var prefix := track.LevelPrefix();
    var data := prefix + READING_LEVELS[i].Name();
    assert data[..|prefix|] == prefix;
    assert data[|prefix|..] == READING_LEVELS[i].Name();
    ValueOfName(READING_LEVELS[i]);
  }

  /** The callback data of a level's button on a track's keyboard. */
  function LevelCallback(track: Track, level: ReadingLevel): (data: string)
    ensures StartsWith(data, track.LevelPrefix())
    ensures ParseReadingLevel(data, track.LevelPrefix()) == Some(level)
  {
    var data := track.LevelPrefix() + level.Name();
    assert data[..|track.LevelPrefix()|] == track.LevelPrefix();
    assert data[|track.LevelPrefix()|..] == level.Name();
    ValueOfName(level);
    data
  }

  /** Pressing a button whose data names a reading level, in its track's
      level step, completes the registration: the profile is stored with
      that level, and the administrators' notices and the congratulation
      follow. LevelCallback gives such data for every level. */
  lemma LevelButtonRegisters(st: Store, req: Request, env: Env, track: Track, level: ReadingLevel, data: string)
    requires Keyed(st)
    requires Classify(req) == CallbackPressed(data) && StartsWith(data, track.LevelPrefix())
    requires ParseReadingLevel(data, track.LevelPrefix()) == Some(level)
    requires Refreshed(st, req).currentStep == Some(track.LevelStep())
    ensures var o := HandleUpdate(st, req, env);
      req.userId in o.store.users
      && Registered(o.store.users[req.userId], Refreshed(st, req), level, track)
      && HasTag(o.store, req.userId, level.Label())
      && |o.messages| > |env.cfg.adminRecipients|
      && o.messages[..|env.cfg.adminRecipients| + 1] ==
         AdminNotices(env.cfg.adminRecipients, req.userId) + [RegistrationDoneMessage(req.userId, env.cfg)]
  {
    UpdateRunsLevel(st, req, env, track, level, data);
    RegistrationOutcome(Turn(Refreshed(st, req), st, []), req.userId, level, track, env);
  }

  /** What a completed registration started with no message leaves: the
      registered profile, the level tag, and the notices and the
      congratulation first among the messages. */
  lemma RegistrationOutcome(t: Turn, uid: int, level: ReadingLevel, track: Track, env: Env)
    requires t.out == []
    ensures var r := CompleteRegistration(t, uid, level, track, env);
      var saved := SaveContext(r.st, r.ctx, env.now);
      uid in saved.users && Registered(saved.users[uid], t.ctx, level, track)
      && HasTag(saved, uid, level.Label())
      && |r.out| > |env.cfg.adminRecipients|
      && r.out[..|env.cfg.adminRecipients| + 1] ==
         AdminNotices(env.cfg.adminRecipients, uid) + [RegistrationDoneMessage(uid, env.cfg)]
  {
    NoticesFirst(t, CompleteRegistration(t, uid, level, track, env), uid, env.cfg);
  }

  /** Notices sent after no message are the first messages. */
  lemma NoticesFirst(t: Turn, r: Turn, uid: int, cfg: Config)
    requires t.out == [] && NoticesSent(t, r, uid, cfg)
    ensures |r.out| > |cfg.adminRecipients|
    ensures r.out[..|cfg.adminRecipients| + 1] == AdminNotices(cfg.adminRecipients, uid) + [RegistrationDoneMessage(uid, cfg)]
  {
    var a := AdminNotices(cfg.adminRecipients, uid);
    assert t.out + a == a;
  }

  /** A level callback of the track, in the track's level step, naming a
      level, runs the registration and saves the context it leaves. */
  lemma UpdateRunsLevel(st: Store, req: Request, env: Env, track: Track, level: ReadingLevel, data: string)
    requires Keyed(st)
    requires Classify(req) == CallbackPressed(data) && StartsWith(data, track.LevelPrefix())
    requires ParseReadingLevel(data, track.LevelPrefix()) == Some(level)
    requires Refreshed(st, req).currentStep == Some(track.LevelStep())
    ensures var r := CompleteRegistration(Turn(Refreshed(st, req), st, []), req.userId, level, track, env);
      HandleUpdate(st, req, env) == Outcome(SaveContext(r.st, r.ctx, env.now), r.out)
  {
    var t0 := Turn(Refreshed(st, req), st, []);
    UpdateRunsCallback(st, req, env, data);
    LevelDispatch(t0, req, env, track, level, data);
  }

  /** handleCallback sends a level button pressed in its level step to
      completeRegistration. */
  lemma LevelDispatch(t: Turn, req: Request, env: Env, track: Track, level: ReadingLevel, data: string)
    requires t.ctx.userId == req.userId && StartsWith(data, track.LevelPrefix())
    requires ParseReadingLevel(data, track.LevelPrefix()) == Some(level)
    requires t.ctx.currentStep == Some(track.LevelStep())
    ensures HandleCallback(t, req, data, env) == CompleteRegistration(t, req.userId, level, track, env)
  {
    PrefixesDiffer(data);
    assert HandleCallback(t, req, data, env) == HandleReadingLevel(t, req.userId, data, track, env);
  }
}
