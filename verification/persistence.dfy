/** The database as one value: the four tables the bot core reads and
    writes, and the repository queries it issues against them. */
module Persistence {
  import opened Wrappers
  import opened Domain

  /** users and flow_contexts are keyed by Telegram user id (a unique
      column); the usage ledger keeps insertion order; a user tag is unique
      per (user id, tag) and remembers when it was created. */
  datatype Store = Store(
    users: map<int, User>,
    contexts: map<int, FlowContext>,
    usages: seq<ReferralLinkUsage>,
    tags: map<(int, string), Instant>)

  /** Every row sits under its own user id. */
  predicate Keyed(st: Store) {
    (forall k :: k in st.users ==> st.users[k].userId == k)
    && (forall k :: k in st.contexts ==> st.contexts[k].userId == k)
  }

  /** At most one ledger row per (referrer, invitee) pair. */
  predicate OneRowPerPair(usages: seq<ReferralLinkUsage>) {
    forall a, b :: 0 <= a < b < |usages| ==>
      (usages[a].referrerUserId, usages[a].inviteeUserId) != (usages[b].referrerUserId, usages[b].inviteeUserId)
  }

  /** At most one ledger row per idempotency key. */
  predicate OneRowPerKey(usages: seq<ReferralLinkUsage>) {
    forall a, b :: 0 <= a < b < |usages| ==> usages[a].idempotencyKey != usages[b].idempotencyKey
  }

  /** At most one ledger row per event id, the table's primary key. */
  predicate OneRowPerEvent(usages: seq<ReferralLinkUsage>) {
    forall a, b :: 0 <= a < b < |usages| ==> usages[a].referralEventId != usages[b].referralEventId
  }

  predicate HasEventRow(usages: seq<ReferralLinkUsage>, id: EventId) {
    exists k :: 0 <= k < |usages| && usages[k].referralEventId == id
  }

  predicate HasPairRow(usages: seq<ReferralLinkUsage>, referrer: int, invitee: int) {
    exists k :: 0 <= k < |usages| && usages[k].referrerUserId == referrer && usages[k].inviteeUserId == invitee
  }

  /** findByIdempotencyKey: the row holding the key (the first one, which
      under OneRowPerKey is the only one). */
  function FindByIdempotencyKey(usages: seq<ReferralLinkUsage>, key: string): (r: Option<ReferralLinkUsage>)
    ensures r.Some? ==> r.value in usages && r.value.idempotencyKey == key
    ensures r.None? <==> forall k :: 0 <= k < |usages| ==> usages[k].idempotencyKey != key
  {
    if usages == [] then None
    else if usages[0].idempotencyKey == key then Some(usages[0])
    else FindByIdempotencyKey(usages[1..], key)
  }

  /** findByReferrerUserIdAndInviteeUserId. */
  function FindByPair(usages: seq<ReferralLinkUsage>, referrer: int, invitee: int): (r: Option<ReferralLinkUsage>)
    ensures r.Some? ==> r.value in usages && r.value.referrerUserId == referrer && r.value.inviteeUserId == invitee
    ensures r.None? <==> !HasPairRow(usages, referrer, invitee)
  {
    if usages == [] then None
    else if usages[0].referrerUserId == referrer && usages[0].inviteeUserId == invitee then Some(usages[0])
    else
      var r := FindByPair(usages[1..], referrer, invitee);
      assert HasPairRow(usages[1..], referrer, invitee) ==> HasPairRow(usages, referrer, invitee) by {
        if HasPairRow(usages[1..], referrer, invitee) {
          var k :| 0 <= k < |usages[1..]| && usages[1..][k].referrerUserId == referrer && usages[1..][k].inviteeUserId == invitee;
          assert usages[k + 1] == usages[1..][k];
        }
      }
      r
  }

  /** existsByInviteeUserId. */
  predicate HasInviteeRow(usages: seq<ReferralLinkUsage>, invitee: int) {
    exists k :: 0 <= k < |usages| && usages[k].inviteeUserId == invitee
  }

  /** existsByUserIdAndTag. */
  predicate HasTag(st: Store, userId: int, tag: string) {
    (userId, tag) in st.tags
  }

  /** The bot's assignTag: insert (userId, tag) stamped `now` unless that
      pair is already stored. */
  function AssignTag(st: Store, userId: int, tag: string, now: Instant): (r: Store)
    ensures HasTag(r, userId, tag)
    ensures HasTag(st, userId, tag) ==> r == st
    ensures r.tags.Keys == st.tags.Keys + {(userId, tag)}
    ensures forall k :: k in st.tags ==> r.tags[k] == st.tags[k]
    ensures r == st.(tags := r.tags)
  {
    if HasTag(st, userId, tag) then st else st.(tags := st.tags[(userId, tag) := now])
  }

  /** Every finite non-empty set of integers has a least element. */
  lemma {:induction false} LeastExists(s: set<int>)
    requires s != {}
    ensures exists m :: m in s && forall y :: y in s ==> m <= y
  {
    var m := LeastWitness(s);
  }

  /** The least element, found by removing one element at a time. */
  lemma {:induction false} LeastWitness(s: set<int>) returns (m: int)
    requires s != {}
    ensures m in s && forall y :: y in s ==> m <= y
    decreases |s|
  {
    NonEmptyHasElement(s);
    var x :| x in s;
    if s == {x} {
      m := x;
    } else {
      var rest := s - {x};
      var least := LeastWitness(rest);
      m := if x < least then x else least;
      forall y | y in s ensures m <= y {
        if y != x { assert y in rest; }
      }
    }
  }

  lemma NonEmptyHasElement(s: set<int>)
    requires s != {}
    ensures exists x :: x in s
  {
    if forall x :: x !in s { assert false; }
  }

  function Least(s: set<int>): (m: int)
    requires s != {}
    ensures m in s && forall y :: y in s ==> m <= y
  {
    LeastExists(s);
    var m :| m in s && forall y :: y in s ==> m <= y; m
  }

  /** The ids of a key set in ascending order: the scan order the model
      fixes for queries whose SQL leaves the order open, and the order of
      queries sorted by user id. */
  function Ascending(s: set<int>): (r: seq<int>)
    ensures |r| == |s|
    ensures forall x :: x in s <==> x in r
    ensures forall a, b :: 0 <= a < b < |r| ==> r[a] < r[b]
    decreases |s|
  {
    if s == {} then []
    else
      var m := Least(s);
      var rest := Ascending(s - {m});
      var r := [m] + rest;
      forall a, b | 0 <= a < b < |r| ensures r[a] < r[b] {
        assert r[b] == rest[b - 1] && rest[b - 1] in rest;
        if a > 0 {
          assert r[a] == rest[a - 1];
        }
      }
      forall x ensures x in s <==> x in r {
        assert x in r <==> x == m || x in rest;
      }
      r
  }

  /** The rows of a table keyed by user id, in ascending id order: the
      result of findAll(Sort.by("userId")). */
  function ById<T>(rows: map<int, T>): (r: seq<T>)
    ensures var ids := Ascending(rows.Keys);
      |r| == |ids| && forall i :: 0 <= i < |r| ==> r[i] == rows[ids[i]]
  {
    var ids := Ascending(rows.Keys);
    assert forall i :: 0 <= i < |ids| ==> ids[i] in rows.Keys by {
      forall i | 0 <= i < |ids| ensures ids[i] in rows.Keys {
        assert ids[i] in ids;
      }
    }
    seq(|ids|, i requires 0 <= i < |ids| => rows[ids[i]])
  }

  /** A sort key of two columns, the second nullable. */
  type SortKey = (int, Option<int>)

  /** Ascending order on sort keys, first column first; a null second
      column sorts after every value, as PostgreSQL orders nulls in an
      ascending sort. */
  predicate KeyLe(a: SortKey, b: SortKey) {
    a.0 < b.0 || (a.0 == b.0 && (b.1.None? || (a.1.Some? && a.1.value <= b.1.value)))
  }

  predicate SortedBy<T>(s: seq<T>, key: T -> SortKey) {
    forall i, j :: 0 <= i < j < |s| ==> KeyLe(key(s[i]), key(s[j]))
  }

  /** The first row of a sorted list has the least key. */
  lemma HeadLeAll<T>(s: seq<T>, key: T -> SortKey)
    requires SortedBy(s, key) && s != []
    ensures forall y :: y in s ==> KeyLe(key(s[0]), key(y))
  {
    forall y | y in s ensures KeyLe(key(s[0]), key(y)) {
      var k :| 0 <= k < |s| && s[k] == y;
      if k > 0 { assert KeyLe(key(s[0]), key(s[k])); }
    }
  }

  /** A row whose key is at most every key of a sorted list may go first. */
  lemma ConsSorted<T>(h: T, rest: seq<T>, key: T -> SortKey)
    requires SortedBy(rest, key)
    requires forall y :: y in rest ==> KeyLe(key(h), key(y))
    ensures SortedBy([h] + rest, key)
  {
    var r := [h] + rest;
    forall a, b | 0 <= a < b < |r| ensures KeyLe(key(r[a]), key(r[b])) {
      assert r[b] == rest[b - 1];
      if a > 0 { assert r[a] == rest[a - 1]; }
    }
  }

  /** One row put in its place in a sorted list. */
  function Insert<T>(x: T, s: seq<T>, key: T -> SortKey): (r: seq<T>)
    requires SortedBy(s, key)
    ensures SortedBy(r, key)
    ensures multiset(r) == multiset(s) + multiset{x}
    ensures forall y :: y in r ==> y == x || y in s
    decreases |s|
  {
    if s == [] then [x]
    else if KeyLe(key(x), key(s[0])) then
      HeadLeAll(s, key);
      ConsSorted(x, s, key);
      [x] + s
    else
      var rest := Insert(x, s[1..], key);
      HeadLeAll(s, key);
      assert forall y :: y in s[1..] ==> y in s;
      ConsSorted(s[0], rest, key);
      assert s == [s[0]] + s[1..];
      [s[0]] + rest
  }

  /** findAll with a sort: the same rows, reordered so that their keys
      ascend. Rows with equal keys come in an order the database leaves
      open; the model keeps one. */
  function SortBy<T>(s: seq<T>, key: T -> SortKey): (r: seq<T>)
    ensures SortedBy(r, key)
    ensures multiset(r) == multiset(s) && |r| == |s|
    decreases |s|
  {
    if s == [] then []
    else
      assert s == [s[0]] + s[1..];
      Insert(s[0], SortBy(s[1..], key), key)
  }
}
