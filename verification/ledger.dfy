/** The referral ledger (ReferralBonusService.processReferralEvent): credits
    a referrer at most once per invitee and records every credit as a row. */
module Ledger {
  import opened Wrappers
  import opened Domain
  import opened Persistence
  import JavaText

  /** ReferralEventPayload; every component may be null. */
  datatype ReferralEventPayload = ReferralEventPayload(
    referralEventId: Option<EventId>,
    referrerUserId: Option<int>,
    inviteeUserId: Option<int>,
    idempotencyKey: Option<string>,
    triggerSource: Option<string>,
    triggeredAt: Option<Instant>,
    referralLink: Option<string>)

  /** ReferralProcessResult. */
  datatype ReferralProcessResult = ReferralProcessResult(
    payloadValid: bool,
    alreadyCounted: bool,
    newlyCounted: bool,
    referralPoints: Int32,
    anomaly: bool)

  /** ReferralProcessResult.invalid(). */
  const INVALID := ReferralProcessResult(false, false, false, 0, true)

  datatype LedgerStep = LedgerStep(store: Store, result: ReferralProcessResult)

  /** isPayloadValid: non-null, with an event id, both user ids, a non-blank
      idempotency key, a non-blank trigger source and a trigger time. */
  predicate IsPayloadValid(p: Option<ReferralEventPayload>) {
    p.Some? && p.value.referralEventId.Some? && p.value.referrerUserId.Some?
    && p.value.inviteeUserId.Some?
    && p.value.idempotencyKey.Some? && !JavaText.IsBlank(p.value.idempotencyKey.value)
    && p.value.triggerSource.Some? && !JavaText.IsBlank(p.value.triggerSource.value)
    && p.value.triggeredAt.Some?
  }

  /** The row an event matches: by idempotency key first, then by pair. */
  function FindExisting(usages: seq<ReferralLinkUsage>, key: string, referrer: int, invitee: int): (r: Option<ReferralLinkUsage>)
    ensures r.Some? ==> r.value in usages
    ensures r.Some? ==> r.value.idempotencyKey == key
                        || (r.value.referrerUserId == referrer && r.value.inviteeUserId == invitee)
    ensures r.None? <==> FindByIdempotencyKey(usages, key).None? && !HasPairRow(usages, referrer, invitee)
    ensures FindByIdempotencyKey(usages, key).Some? ==> r == FindByIdempotencyKey(usages, key)
  {
    match FindByIdempotencyKey(usages, key)
    case Some(u) => Some(u)
    case None => FindByPair(usages, referrer, invitee)
  }

  /** ensureInviteeMarkedAsCounted: a COUNTED invitee is left alone; any
      other is set COUNTED at the row's counted time (or `now` if null). */
  function EnsureCounted(invitee: User, countedAt: Option<Instant>, now: Instant): (r: User)
    ensures r.referralStatus == Some(Counted)
    ensures invitee.referralStatus == Some(Counted) ==> r == invitee
    ensures invitee.referralStatus != Some(Counted) ==>
      r.referralCountedAt == Some(countedAt.GetOr(now))
    ensures r.(referralStatus := invitee.referralStatus, referralCountedAt := invitee.referralCountedAt) == invitee
  {
    if invitee.referralStatus == Some(Counted) then invitee
    else invitee.(referralStatus := Some(Counted), referralCountedAt := Some(countedAt.GetOr(now)))
  }

  /** processReferralEvent. Only the users map and the ledger can change,
      and only the referrer's and the invitee's rows. */
  function ProcessReferralEvent(st: Store, payload: Option<ReferralEventPayload>, now: Instant): (o: LedgerStep)
    ensures o.store.contexts == st.contexts && o.store.tags == st.tags
    ensures o.store.users.Keys == st.users.Keys
    ensures forall k :: k in st.users ==> o.store.users[k].userId == st.users[k].userId
    ensures forall k :: k in st.users && o.store.users[k] != st.users[k] ==>
      IsPayloadValid(payload) && o.result.payloadValid
      && (k == payload.value.referrerUserId.value || k == payload.value.inviteeUserId.value)
    ensures IsPayloadValid(payload) && payload.value.referrerUserId.value in st.users
            && payload.value.referrerUserId.value != payload.value.inviteeUserId.value ==>
      var k := payload.value.referrerUserId.value;
      o.store.users[k] == st.users[k].(referralPoints := o.store.users[k].referralPoints)
    ensures IsPayloadValid(payload) && payload.value.inviteeUserId.value in st.users ==>
      var k := payload.value.inviteeUserId.value;
      o.store.users[k] == st.users[k].(referralStatus := o.store.users[k].referralStatus,
                                       referralCountedAt := o.store.users[k].referralCountedAt)
      && (o.store.users[k].referralStatus == st.users[k].referralStatus
          || o.store.users[k].referralStatus == Some(Counted))
    ensures o.store.usages == st.usages || (o.result.newlyCounted && |o.store.usages| == |st.usages| + 1
                                            && o.store.usages[..|st.usages|] == st.usages)
    ensures !o.result.payloadValid ==> o == LedgerStep(st, INVALID)
    ensures o.result.newlyCounted ==> o.result.payloadValid && o.result.alreadyCounted && !o.result.anomaly
  {
    if !IsPayloadValid(payload) then LedgerStep(st, INVALID)
    else
      var p := payload.value;
      var referrerId := p.referrerUserId.value;
      var inviteeId := p.inviteeUserId.value;
      if referrerId == inviteeId then LedgerStep(st, INVALID)
      else if referrerId !in st.users || inviteeId !in st.users then LedgerStep(st, INVALID)
      else
        var referrer := st.users[referrerId];
        var invitee := st.users[inviteeId];
        match FindExisting(st.usages, p.idempotencyKey.value, referrerId, inviteeId)
        case Some(existing) =>
          if existing.alreadyCounted then
            LedgerStep(st.(users := st.users[inviteeId := EnsureCounted(invitee, existing.countedAt, now)]),
                       ReferralProcessResult(true, true, false, referrer.referralPoints, false))
          else
            LedgerStep(st, ReferralProcessResult(true, false, false, referrer.referralPoints, true))
        case None =>
          var row := UsageOnCreate(ReferralLinkUsage(p.referralEventId.value, p.referralLink, referrerId, inviteeId,
                                                     p.idempotencyKey.value, true, Some(now), p.triggerSource.value,
                                                     p.triggeredAt.value, None), now);
          var credited := IncrementReferralPoints(referrer);
          var counted := invitee.(referralStatus := Some(Counted), referralCountedAt := Some(now));
          LedgerStep(st.(usages := st.usages + [row], users := st.users[referrerId := credited][inviteeId := counted]),
                     ReferralProcessResult(true, true, true, credited.referralPoints, false))
  }

  /** The outcomes of an event: valid exactly when the payload is complete,
      names two different users and both have a profile; a counted row
      that matches reports the referrer's current points and heals the
      invitee; an uncounted row that matches is an anomaly that changes
      nothing. */
  lemma ProcessOutcomes(st: Store, payload: Option<ReferralEventPayload>, now: Instant)
    ensures var o := ProcessReferralEvent(st, payload, now);
      o.result.payloadValid <==>
        IsPayloadValid(payload) && payload.value.referrerUserId.value != payload.value.inviteeUserId.value
        && payload.value.referrerUserId.value in st.users && payload.value.inviteeUserId.value in st.users
    ensures var o := ProcessReferralEvent(st, payload, now);
      o.result.payloadValid ==>
        var p := payload.value;
        var r := p.referrerUserId.value;
        var i := p.inviteeUserId.value;
        match FindExisting(st.usages, p.idempotencyKey.value, r, i)
        case Some(row) =>
          o.store.usages == st.usages && o.store.users[r] == st.users[r]
          && (row.alreadyCounted ==>
                o.result == ReferralProcessResult(true, true, false, st.users[r].referralPoints, false)
                && o.store.users[i] == EnsureCounted(st.users[i], row.countedAt, now))
          && (!row.alreadyCounted ==>
                o == LedgerStep(st, ReferralProcessResult(true, false, false, st.users[r].referralPoints, true)))
        case None => o.result.newlyCounted
  {
  }

  /** The pair a payload names, when it names one. */
  predicate NamesPair(payload: Option<ReferralEventPayload>, referrer: int, invitee: int) {
    payload.Some? && payload.value.referrerUserId == Some(referrer) && payload.value.inviteeUserId == Some(invitee)
  }

  /** A first credit: a valid event for two distinct stored users that no
      row matches appends one counted row, raises the referrer's points by
      one, marks the invitee COUNTED at `now`, and reports the new total. */
  lemma FirstCredit(st: Store, p: ReferralEventPayload, now: Instant)
    requires IsPayloadValid(Some(p))
    requires p.referrerUserId.value != p.inviteeUserId.value
    requires p.referrerUserId.value in st.users && p.inviteeUserId.value in st.users
    requires FindByIdempotencyKey(st.usages, p.idempotencyKey.value).None?
    requires !HasPairRow(st.usages, p.referrerUserId.value, p.inviteeUserId.value)
    ensures var o := ProcessReferralEvent(st, Some(p), now);
      var r := p.referrerUserId.value;
      var i := p.inviteeUserId.value;
      o.result == ReferralProcessResult(true, true, true, IncInt32(st.users[r].referralPoints), false)
      && o.store.users[r].referralPoints == IncInt32(st.users[r].referralPoints)
      && o.store.users[i].referralStatus == Some(Counted) && o.store.users[i].referralCountedAt == Some(now)
      && |o.store.usages| == |st.usages| + 1
      && var row := o.store.usages[|st.usages|];
         row.referrerUserId == r && row.inviteeUserId == i && row.alreadyCounted
         && row.countedAt == Some(now) && row.idempotencyKey == p.idempotencyKey.value
         && row.referralEventId == p.referralEventId.value
  {
  }

  /** Once a pair has a counted row, no later event for that pair credits
      again, whatever its key and event id: the referrer's points do not
      move and the invitee ends COUNTED. */
  lemma NoSecondCredit(st: Store, p: ReferralEventPayload, now: Instant)
    requires OneRowPerKey(st.usages)
    requires IsPayloadValid(Some(p))
    requires p.referrerUserId.value in st.users && p.inviteeUserId.value in st.users
    requires p.referrerUserId.value != p.inviteeUserId.value
    requires forall k :: 0 <= k < |st.usages| ==>
      (st.usages[k].referrerUserId == p.referrerUserId.value && st.usages[k].inviteeUserId == p.inviteeUserId.value)
      || st.usages[k].idempotencyKey != p.idempotencyKey.value
    requires exists k :: (0 <= k < |st.usages| && st.usages[k].alreadyCounted
      && st.usages[k].referrerUserId == p.referrerUserId.value && st.usages[k].inviteeUserId == p.inviteeUserId.value)
    requires OneRowPerPair(st.usages)
    ensures var o := ProcessReferralEvent(st, Some(p), now);
      !o.result.newlyCounted && o.result.alreadyCounted && !o.result.anomaly
      && o.store.usages == st.usages
      && o.store.users[p.referrerUserId.value] == st.users[p.referrerUserId.value]
      && o.store.users[p.inviteeUserId.value].referralStatus == Some(Counted)
  {
    var r := p.referrerUserId.value;
    var i := p.inviteeUserId.value;
    var k :| 0 <= k < |st.usages| && st.usages[k].alreadyCounted
      && st.usages[k].referrerUserId == r && st.usages[k].inviteeUserId == i;
    var e := FindExisting(st.usages, p.idempotencyKey.value, r, i);
    assert e.Some?;
    var j :| 0 <= j < |st.usages| && st.usages[j] == e.value;
    assert st.usages[j].referrerUserId == r && st.usages[j].inviteeUserId == i;
    if j != k {
      assert false;
    }
  }

  /** The ledger keeps at most one row per pair and per key, and at most
      one row per event id as long as each event arrives with an id no row
      carries yet. */
  lemma PreservesUniqueness(st: Store, payload: Option<ReferralEventPayload>, now: Instant)
    requires OneRowPerPair(st.usages) && OneRowPerKey(st.usages)
    ensures var o := ProcessReferralEvent(st, payload, now);
      OneRowPerPair(o.store.usages) && OneRowPerKey(o.store.usages)
    ensures var o := ProcessReferralEvent(st, payload, now);
      OneRowPerEvent(st.usages) && payload.Some? && payload.value.referralEventId.Some?
      && !HasEventRow(st.usages, payload.value.referralEventId.value) ==>
      OneRowPerEvent(o.store.usages)
  {
    var o := ProcessReferralEvent(st, payload, now);
    if o.store.usages != st.usages {
      var p := payload.value;
      var e := FindExisting(st.usages, p.idempotencyKey.value, p.referrerUserId.value, p.inviteeUserId.value);
      assert e.None?;
      var n := |st.usages|;
      var row := o.store.usages[n];
      forall a, b | 0 <= a < b < |o.store.usages|
        ensures (o.store.usages[a].referrerUserId, o.store.usages[a].inviteeUserId)
             != (o.store.usages[b].referrerUserId, o.store.usages[b].inviteeUserId)
        ensures o.store.usages[a].idempotencyKey != o.store.usages[b].idempotencyKey
        ensures OneRowPerEvent(st.usages) && !HasEventRow(st.usages, p.referralEventId.value) ==>
          o.store.usages[a].referralEventId != o.store.usages[b].referralEventId
      {
        if b == n {
          assert o.store.usages[a] == st.usages[a];
        } else {
          assert o.store.usages[a] == st.usages[a] && o.store.usages[b] == st.usages[b];
        }
      }
    }
  }

  /** A sequence of ledger calls, each at its own time, applied in order
      (the referrer row lock serialises concurrent calls into such an order). */
  datatype Call = Call(payload: Option<ReferralEventPayload>, now: Instant)

  datatype Run = Run(store: Store, results: seq<ReferralProcessResult>)

  function RunCalls(st: Store, calls: seq<Call>): (r: Run)
    ensures |r.results| == |calls|
    ensures r.store.users.Keys == st.users.Keys
    decreases |calls|
  {
    if calls == [] then Run(st, [])
    else
      var o := ProcessReferralEvent(st, calls[0].payload, calls[0].now);
      var rest := RunCalls(o.store, calls[1..]);
      Run(rest.store, [o.result] + rest.results)
  }

  /** How many of the calls credited the pair (referrer, invitee). */
  function CreditsFor(calls: seq<Call>, results: seq<ReferralProcessResult>, referrer: int, invitee: int): nat
    requires |results| == |calls|
  {
    if calls == [] then 0
    else (if results[0].newlyCounted && NamesPair(calls[0].payload, referrer, invitee) then 1 else 0)
         + CreditsFor(calls[1..], results[1..], referrer, invitee)
  }

  /** A call that credits a pair leaves a row for that pair, and no call
      removes a row. */
  lemma CreditLeavesRow(st: Store, payload: Option<ReferralEventPayload>, now: Instant, referrer: int, invitee: int)
    ensures var o := ProcessReferralEvent(st, payload, now);
      (HasPairRow(st.usages, referrer, invitee) ==> HasPairRow(o.store.usages, referrer, invitee))
      && (o.result.newlyCounted && NamesPair(payload, referrer, invitee) ==> HasPairRow(o.store.usages, referrer, invitee))
  {
    var o := ProcessReferralEvent(st, payload, now);
    if HasPairRow(st.usages, referrer, invitee) {
      var k :| 0 <= k < |st.usages| && st.usages[k].referrerUserId == referrer && st.usages[k].inviteeUserId == invitee;
      assert o.store.usages[k] == st.usages[k];
    }
    if o.result.newlyCounted && NamesPair(payload, referrer, invitee) {
      assert o.store.usages[|st.usages|].referrerUserId == referrer;
    }
  }

  /** At most one +1 per pair: over any sequence of calls, a pair is
      credited at most once, and never if the ledger already had a row for it. */
  lemma {:induction false} AtMostOneCreditPerPair(st: Store, calls: seq<Call>, referrer: int, invitee: int)
    ensures var r := RunCalls(st, calls);
      CreditsFor(calls, r.results, referrer, invitee) <= 1
      && (HasPairRow(st.usages, referrer, invitee) ==> CreditsFor(calls, r.results, referrer, invitee) == 0)
    decreases |calls|
  {
    if calls != [] {
      var o := ProcessReferralEvent(st, calls[0].payload, calls[0].now);
      var rest := RunCalls(o.store, calls[1..]);
      var r := RunCalls(st, calls);
      assert r.results[1..] == rest.results;
      CreditLeavesRow(st, calls[0].payload, calls[0].now, referrer, invitee);
      AtMostOneCreditPerPair(o.store, calls[1..], referrer, invitee);
    }
  }
}
