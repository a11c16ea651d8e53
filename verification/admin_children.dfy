/** AdminChildrenService: the admin search over profiles by children
    count, Qur'an study, reading level, registration and user id. The
    profiles are scanned in user-id order, each filter of the pipeline
    keeps the users it accepts, and the first `limit` survivors are
    returned. */
module AdminChildren {
  import opened Wrappers
  import opened Decimal
  import opened Domain
  import opened Persistence
  import opened PublicChildren

  const DEFAULT_LIMIT: int := 100
  const MAX_LIMIT: int := 1000

  /** normalizeLimit: 100 when absent, 1 for zero or less, and at most
      1000. */
  function NormalizeLimit(limit: Option<int>): (r: int)
    ensures 1 <= r <= MAX_LIMIT
    ensures limit.None? ==> r == DEFAULT_LIMIT
    ensures limit.Some? && limit.value <= 0 ==> r == 1
    ensures limit.Some? && 0 < limit.value <= MAX_LIMIT ==> r == limit.value
    ensures limit.Some? && limit.value > MAX_LIMIT ==> r == MAX_LIMIT
  {
    match limit
    case None => DEFAULT_LIMIT
    case Some(l) => if l <= 0 then 1 else if l < MAX_LIMIT then l else MAX_LIMIT
  }

  /** The arguments of searchInternal, each possibly null. */
  datatype SearchRequest = SearchRequest(
    userIds: Option<seq<int>>,
    minChildrenCount: Option<int>,
    maxChildrenCount: Option<int>,
    childrenStudyQuran: Option<bool>,
    readingLevels: Option<seq<ReadingLevel>>,
    registrationCompleted: Option<bool>,
    onlyWithChildren: Option<bool>,
    limit: Option<int>)

  /** AdminChildrenSearchRequest.empty(): every field null. */
  const EMPTY_REQUEST: SearchRequest := SearchRequest(None, None, None, None, None, None, None, None)

  function MinCount(q: SearchRequest): int {
    q.minChildrenCount.GetOr(0)
  }

  function MaxCount(q: SearchRequest): int {
    q.maxChildrenCount.GetOr(INT_MAX)
  }

  /** A null onlyWithChildren means children are required. */
  predicate RequireChildren(q: SearchRequest) {
    q.onlyWithChildren.None? || q.onlyWithChildren.value
  }

  function IdFilter(q: SearchRequest): set<int> {
    match q.userIds case None => {} case Some(ids) => set i | i in ids
  }

  function LevelFilter(q: SearchRequest): set<ReadingLevel> {
    match q.readingLevels case None => {} case Some(levels) => set l | l in levels
  }

  // ---- The five filters, in pipeline order ---------------------------------

  predicate IdOk(q: SearchRequest, u: User) {
    IdFilter(q) == {} || u.userId in IdFilter(q)
  }

  /** A null children count counts as zero. */
  predicate CountOk(q: SearchRequest, u: User) {
    var count := u.childrenCount.GetOr(0);
    MinCount(q) <= count <= MaxCount(q) && (!RequireChildren(q) || count > 0)
  }

  predicate StudyOk(q: SearchRequest, u: User) {
    q.childrenStudyQuran.None? || q.childrenStudyQuran == u.childrenStudyQuran
  }

  predicate LevelOk(q: SearchRequest, u: User) {
    LevelFilter(q) == {} || (u.readingLevel.Some? && u.readingLevel.value in LevelFilter(q))
  }

  predicate RegistrationOk(q: SearchRequest, u: User) {
    q.registrationCompleted.None? || q.registrationCompleted.value == u.registrationCompleted
  }

  /** Every active filter at once: the reference the pipeline is measured
      against. */
  predicate Matches(q: SearchRequest, u: User) {
    IdOk(q, u) && CountOk(q, u) && StudyOk(q, u) && LevelOk(q, u) && RegistrationOk(q, u)
  }

  /** Matches as a filter condition. */
  function Matching(q: SearchRequest): (p: User -> bool)
    ensures forall u :: p(u) == Matches(q, u)
  {
    u => Matches(q, u)
  }

  // ---- Sequences -----------------------------------------------------------

  /** Stream.filter. */
  function Filter(users: seq<User>, p: User -> bool): (r: seq<User>)
    ensures |r| <= |users|
    ensures forall u :: u in r ==> u in users && p(u)
    ensures forall u :: u in users && p(u) ==> u in r
  {
    if users == [] then [] else (if p(users[0]) then [users[0]] else []) + Filter(users[1..], p)
  }

  /** Stream.limit. */
  function Take(users: seq<User>, n: nat): (r: seq<User>)
    ensures |r| <= n && |r| <= |users|
  {
    if |users| <= n then users else users[..n]
  }

  /** Two filters in a row are one filter by both conditions. */
  lemma {:induction false} FilterFilter(users: seq<User>, p: User -> bool, q: User -> bool, both: User -> bool)
    requires forall u :: both(u) == (p(u) && q(u))
    ensures Filter(Filter(users, p), q) == Filter(users, both)
    decreases |users|
  {
    if users != [] {
      FilterFilter(users[1..], p, q, both);
      if p(users[0]) {
        assert Filter(users, p) == [users[0]] + Filter(users[1..], p);
      } else {
        assert Filter(users, p) == Filter(users[1..], p);
      }
    }
  }

  /** a keeps some elements of b, in b's order. */
  predicate SubsequenceOf(a: seq<User>, b: seq<User>)
    decreases |b|
  {
    if a == [] then true
    else if b == [] then false
    else if a[0] == b[0] then SubsequenceOf(a[1..], b[1..])
    else SubsequenceOf(a, b[1..])
  }

  lemma {:induction false} FilterIsSubsequence(users: seq<User>, p: User -> bool)
    ensures SubsequenceOf(Filter(users, p), users)
    decreases |users|
  {
    if users != [] {
      FilterIsSubsequence(users[1..], p);
      if p(users[0]) {
        assert Filter(users, p) == [users[0]] + Filter(users[1..], p);
        assert Filter(users, p)[1..] == Filter(users[1..], p);
      } else {
        var rest := Filter(users[1..], p);
        assert Filter(users, p) == rest;
        assert rest != [] ==> rest[0] in rest && rest[0] != users[0];
      }
    }
  }

  /** A prefix of a subsequence is a subsequence. */
  lemma {:induction false} PrefixIsSubsequence(a: seq<User>, b: seq<User>, k: nat)
    requires SubsequenceOf(a, b) && k <= |a|
    ensures SubsequenceOf(a[..k], b)
    decreases |b|
  {
    if k > 0 && b != [] {
      if a[0] == b[0] {
        PrefixIsSubsequence(a[1..], b[1..], k - 1);
        assert a[..k][1..] == a[1..][..k - 1];
      } else {
        PrefixIsSubsequence(a, b[1..], k);
      }
    }
  }

  /** Strictly ascending user ids. */
  predicate SortedById(users: seq<User>) {
    forall i, j :: 0 <= i < j < |users| ==> users[i].userId < users[j].userId
  }

  /** A subsequence keeps only elements of the original, and keeps a sorted
      original sorted. */
  lemma {:induction false} SubsequenceSorted(a: seq<User>, b: seq<User>)
    requires SubsequenceOf(a, b)
    ensures forall u :: u in a ==> u in b
    ensures SortedById(b) ==> SortedById(a)
    decreases |b|
  {
    if a != [] && b != [] {
      if a[0] == b[0] {
        SubsequenceSorted(a[1..], b[1..]);
        if SortedById(b) {
          assert SortedById(b[1..]);
          forall i, j | 0 <= i < j < |a| ensures a[i].userId < a[j].userId {
            if i > 0 {
              assert a[i] == a[1..][i - 1] && a[j] == a[1..][j - 1];
            } else {
              assert a[j] in b[1..];
            }
          }
        }
        forall u | u in a ensures u in b {
          if u != a[0] {
            assert u in a[1..];
          }
        }
      } else {
        SubsequenceSorted(a, b[1..]);
        if SortedById(b) {
          assert SortedById(b[1..]);
        }
      }
    }
  }

  // ---- The search ----------------------------------------------------------

  /** userRepository.findAll(Sort.by("userId")). */
  function SortedUsers(users: map<int, User>): (r: seq<User>)
    ensures |r| == |users.Keys|
    ensures forall u :: u in r <==> u in users.Values
  {
    var ids := Ascending(users.Keys);
    var r := seq(|ids|, i requires 0 <= i < |ids| => users[ids[i]]);
    assert forall u :: u in users.Values ==> u in r by {
      forall u | u in users.Values ensures u in r {
        var k :| k in users && users[k] == u;
        var i :| 0 <= i < |ids| && ids[i] == k;
        assert r[i] == u;
      }
    }
    r
  }

  /** With every profile under its own id, the scan is in ascending id
      order. */
  lemma SortedUsersSorted(users: map<int, User>)
    requires forall k :: k in users ==> users[k].userId == k
    ensures SortedById(SortedUsers(users))
  {
  }

  /** The pipeline's filters, in the order searchInternal applies them. */
  function Stages(q: SearchRequest): (stages: seq<User -> bool>)
    ensures |stages| == 5
  {
    [u => IdOk(q, u), u => CountOk(q, u), u => StudyOk(q, u), u => LevelOk(q, u), u => RegistrationOk(q, u)]
  }

  /** The stream with each stage's filter applied in turn. */
  function Pipeline(users: seq<User>, stages: seq<User -> bool>): (r: seq<User>)
    decreases |stages|
  {
    if stages == [] then users else Pipeline(Filter(users, stages[0]), stages[1..])
  }

  predicate PassesAll(stages: seq<User -> bool>, u: User) {
    forall i :: 0 <= i < |stages| ==> stages[i](u)
  }

  /** Filters by equivalent conditions keep the same users. */
  lemma {:induction false} FilterSame(users: seq<User>, p: User -> bool, q: User -> bool)
    requires forall u :: p(u) == q(u)
    ensures Filter(users, p) == Filter(users, q)
    decreases |users|
  {
    if users != [] {
      FilterSame(users[1..], p, q);
    }
  }

  /** A filter that keeps everything keeps the stream as it is. */
  lemma {:induction false} FilterAll(users: seq<User>, p: User -> bool)
    requires forall u :: p(u)
    ensures Filter(users, p) == users
    decreases |users|
  {
    if users != [] {
      FilterAll(users[1..], p);
      assert users == [users[0]] + users[1..];
    }
  }

  /** Filters applied one after another are one filter by all their
      conditions. */
  lemma {:induction false} PipelineIsOneFilter(users: seq<User>, stages: seq<User -> bool>)
    ensures Pipeline(users, stages) == Filter(users, u => PassesAll(stages, u))
    decreases |stages|
  {
    if stages == [] {
      FilterAll(users, u => PassesAll(stages, u));
    } else {
      PipelineIsOneFilter(Filter(users, stages[0]), stages[1..]);
      forall u ensures PassesAll(stages, u) == (stages[0](u) && PassesAll(stages[1..], u)) {
        if stages[0](u) && PassesAll(stages[1..], u) {
          forall i | 0 <= i < |stages| ensures stages[i](u) {
            if i > 0 {
              assert stages[i] == stages[1..][i - 1];
            }
          }
        }
      }
      FilterFilter(users, stages[0], u => PassesAll(stages[1..], u), u => PassesAll(stages, u));
    }
  }

  /** The five stages together are the reference filter. */
  lemma StagesMatch(q: SearchRequest)
    ensures forall u :: PassesAll(Stages(q), u) == Matches(q, u)
  {
    forall u ensures PassesAll(Stages(q), u) == Matches(q, u) {
      var s := Stages(q);
      assert s[0](u) == IdOk(q, u) && s[1](u) == CountOk(q, u) && s[2](u) == StudyOk(q, u);
      assert s[3](u) == LevelOk(q, u) && s[4](u) == RegistrationOk(q, u);
    }
  }

  /** searchInternal, as the pipeline the source runs: nothing when the
      minimum exceeds the maximum; otherwise the filters one after another
      over the users in id order, then the limit. Its contract relates it
      to the reference: the first `limit` users passing every filter. */
  function SearchUsers(users: map<int, User>, q: SearchRequest): (r: seq<User>)
    ensures MinCount(q) > MaxCount(q) ==> r == []
    ensures |r| <= NormalizeLimit(q.limit)
    ensures MinCount(q) <= MaxCount(q) ==>
      r == Take(Filter(SortedUsers(users), Matching(q)), NormalizeLimit(q.limit))
  {
    if MinCount(q) > MaxCount(q) then []
    else
      var all := SortedUsers(users);
      PipelineIsOneFilter(all, Stages(q));
      StagesMatch(q);
      FilterSame(all, u => PassesAll(Stages(q), u), Matching(q));
      Take(Pipeline(all, Stages(q)), NormalizeLimit(q.limit))
  }

  /** What the search promises: at most `limit` users, each one passing
      every active filter, in ascending id order, and none skipped: when
      fewer than `limit` come back, they are all the matching users. */
  lemma SearchUsersSound(users: map<int, User>, q: SearchRequest)
    requires forall k :: k in users ==> users[k].userId == k
    ensures var r := SearchUsers(users, q);
      SubsequenceOf(r, SortedUsers(users))
      && SortedById(r)
      && (forall u :: u in r ==> u in users.Values && Matches(q, u))
      && (|r| < NormalizeLimit(q.limit) ==>
            forall u :: u in users.Values && Matches(q, u) && MinCount(q) <= MaxCount(q) ==> u in r)
  {
    var r := SearchUsers(users, q);
    var all := SortedUsers(users);
    SearchKeepsOrder(users, q);
    SortedUsersSorted(users);
    SubsequenceSorted(r, all);
    if MinCount(q) <= MaxCount(q) {
      TakeFilterMembers(all, Matching(q), NormalizeLimit(q.limit));
    }
  }

  /** The first n users a filter keeps pass it, and when fewer than n come
      back every user that passes is among them. */
  lemma TakeFilterMembers(users: seq<User>, p: User -> bool, n: nat)
    ensures forall u :: u in Take(Filter(users, p), n) ==> u in users && p(u)
    ensures |Take(Filter(users, p), n)| < n ==> forall u :: u in users && p(u) ==> u in Take(Filter(users, p), n)
  {
    var kept := Filter(users, p);
    forall u | u in Take(kept, n) ensures u in kept {
      if |kept| > n {
        var i :| 0 <= i < n && kept[..n][i] == u;
        assert kept[i] == u;
      }
    }
  }

  /** The search result is a subsequence of the users in id order. */
  lemma SearchKeepsOrder(users: map<int, User>, q: SearchRequest)
    ensures SubsequenceOf(SearchUsers(users, q), SortedUsers(users))
  {
    if MinCount(q) <= MaxCount(q) {
      TakeFilterIsSubsequence(SortedUsers(users), Matching(q), NormalizeLimit(q.limit));
    }
  }

  /** The first n users a filter keeps are a subsequence of the stream. */
  lemma TakeFilterIsSubsequence(users: seq<User>, p: User -> bool, n: nat)
    ensures SubsequenceOf(Take(Filter(users, p), n), users)
  {
    FilterIsSubsequence(users, p);
    if |Filter(users, p)| > n {
      PrefixIsSubsequence(Filter(users, p), users, n);
    }
  }

  // ---- Responses -----------------------------------------------------------

  /** AdminChildrenUserResponse. */
  datatype UserResponse = UserResponse(
    userId: int,
    telegramFirstName: Option<string>,
    userName: Option<string>,
    age: Option<int>,
    childrenCount: Option<int>,
    childrenAges: seq<int>,
    childrenStudyQuran: Option<bool>,
    phone: Option<string>,
    readingLevel: Option<ReadingLevel>,
    registrationCompleted: bool,
    createdAt: Option<Instant>,
    updatedAt: Option<Instant>)

  /** toResponse: the profile's columns with the ages parsed. */
  function ToResponse(u: User): (r: UserResponse)
    ensures r.userId == u.userId && r.childrenCount == u.childrenCount && r.childrenAges == ChildrenAges(u.childrenAges)
    ensures r.childrenStudyQuran == u.childrenStudyQuran && r.readingLevel == u.readingLevel
    ensures r.registrationCompleted == u.registrationCompleted && r.phone == u.phone
  {
    UserResponse(u.userId, u.telegramFirstName, u.userName, u.age, u.childrenCount, ChildrenAges(u.childrenAges),
                 u.childrenStudyQuran, u.phone, u.readingLevel, u.registrationCompleted, u.createdAt, u.updatedAt)
  }

  function ToResponses(users: seq<User>): (r: seq<UserResponse>)
    ensures |r| == |users| && forall i :: 0 <= i < |users| ==> r[i] == ToResponse(users[i])
  {
    seq(|users|, i requires 0 <= i < |users| => ToResponse(users[i]))
  }

  /** searchInternal with its responses. */
  function SearchInternal(users: map<int, User>, q: SearchRequest): (r: seq<UserResponse>)
    ensures r == ToResponses(SearchUsers(users, q))
    ensures |r| <= NormalizeLimit(q.limit)
  {
    ToResponses(SearchUsers(users, q))
  }

  /** search: a null request is the empty request. */
  function Search(users: map<int, User>, request: Option<SearchRequest>): (r: seq<UserResponse>)
    ensures request.None? ==> r == SearchInternal(users, EMPTY_REQUEST)
    ensures request.Some? ==> r == SearchInternal(users, request.value)
  {
    SearchInternal(users, request.GetOr(EMPTY_REQUEST))
  }

  /** The empty request returns the first hundred users with children, in
      id order. */
  lemma EmptySearch(users: map<int, User>)
    ensures Search(users, None) == Search(users, Some(EMPTY_REQUEST))
    ensures SearchUsers(users, EMPTY_REQUEST)
         == Take(Filter(SortedUsers(users), Matching(EMPTY_REQUEST)), DEFAULT_LIMIT)
    ensures forall u :: Matches(EMPTY_REQUEST, u) <==> 0 < u.childrenCount.GetOr(0) <= INT_MAX
  {
    assert MinCount(EMPTY_REQUEST) == 0 && MaxCount(EMPTY_REQUEST) == INT_MAX;
    assert NormalizeLimit(EMPTY_REQUEST.limit) == DEFAULT_LIMIT;
    assert IdFilter(EMPTY_REQUEST) == {} && LevelFilter(EMPTY_REQUEST) == {};
    assert RequireChildren(EMPTY_REQUEST);
  }

  /** getUsers: a search without id, level or registration filters. */
  function GetUsers(users: map<int, User>, onlyWithChildren: bool, childrenStudyQuran: Option<bool>,
                    minChildrenCount: Option<int>, maxChildrenCount: Option<int>, limit: Option<int>): (r: seq<UserResponse>)
    ensures r == SearchInternal(users, SearchRequest(None, minChildrenCount, maxChildrenCount, childrenStudyQuran,
                                                     None, None, Some(onlyWithChildren), limit))
  {
    SearchInternal(users, SearchRequest(None, minChildrenCount, maxChildrenCount, childrenStudyQuran,
                                        None, None, Some(onlyWithChildren), limit))
  }

  /** getByUserId: the response for the profile with that id, if any. */
  function GetByUserId(users: map<int, User>, userId: Option<int>): (r: Option<UserResponse>)
    ensures r.Some? <==> userId.Some? && userId.value in users
    ensures r.Some? ==> r.value == ToResponse(users[userId.value])
  {
    if userId.Some? && userId.value in users then Some(ToResponse(users[userId.value])) else None
  }
}
