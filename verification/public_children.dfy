/** PublicChildrenService: the public statistics over all profiles, and the
    self-service lookup a parent reaches with their user id and phone
    number. Phones are compared by their digits only. The children's ages
    are stored as comma-separated text, and reading them back skips the
    parts that do not parse. */
module PublicChildren {
  import opened Wrappers
  import opened JavaText
  import opened Decimal
  import opened Domain
  import opened Seqs

  // ---- Children's ages -----------------------------------------------------

  /** One comma-separated part: its trimmed text as an int; nothing for an
      empty part or one Integer.parseInt rejects. */
  function AgeOf(part: string): (r: Option<int>)
    ensures r.Some? ==> IsInt(r.value)
    ensures IsBlank(part) ==> r.None?
  {
    var trimmed := Trim(part);
    if trimmed == [] then None
    else
      BlankNotInt(part, trimmed);
      ParseInt(trimmed)
  }

  /** Trimmed blank text that is left over starts with whitespace, which
      parseInt rejects. */
  lemma BlankNotInt(part: string, trimmed: string)
    requires trimmed == Trim(part) && trimmed != []
    ensures IsBlank(part) ==> ParseInt(trimmed).None?
  {
    if IsBlank(part) {
      assert trimmed[0] in part;
      var k :| 0 <= k < |part| && part[k] == trimmed[0];
      assert IsWhitespace(part[k]);
      assert !IsDigit(trimmed[0]) && trimmed[0] != '-' && trimmed[0] != '+';
      BadLeadNotNumber(trimmed);
    }
  }

  /** The ages the parts hold, in order, the bad parts skipped. */
  function AgesOf(parts: seq<string>): (r: seq<int>)
    ensures |r| <= |parts|
    ensures forall i :: 0 <= i < |r| ==> IsInt(r[i])
  {
    if parts == [] then []
    else
      var last := parts[|parts| - 1];
      AgesOf(parts[..|parts| - 1]) + (match AgeOf(last) case Some(a) => [a] case None => [])
  }

  /** parseChildrenAges stated over the whole text: nothing for null or
      blank text, otherwise the ages of the comma-separated parts. */
  function ChildrenAges(raw: Option<string>): (r: seq<int>)
  {
    if raw.None? || IsBlank(raw.value) then [] else AgesOf(SplitOn(raw.value, ','))
  }

  /** parseChildrenAges: splits on commas and keeps, in order, every part
      whose trimmed text parses as an int. AdminChildrenService has the
      same method. */
  method ParseChildrenAges(raw: Option<string>) returns (ages: seq<int>)
    ensures ages == ChildrenAges(raw)
    ensures raw.None? || IsBlank(raw.value) ==> ages == []
    ensures forall i :: 0 <= i < |ages| ==> IsInt(ages[i])
  {
    if raw.None? || IsBlank(raw.value) {
      return [];
    }
    var parts := SplitOn(raw.value, ',');
    ages := [];
    var i := 0;
    while i < |parts|
      invariant 0 <= i <= |parts|
      invariant ages == AgesOf(parts[..i])
    {
      AgesOfStep(parts, i);
      var trimmed := Trim(parts[i]);
      if trimmed != [] {
        var parsed := ParseInt(trimmed);
        if parsed.Some? {
          ages := ages + [parsed.value];
        }
      }
      i := i + 1;
    }
    assert parts[..i] == parts;
  }

  /** Each age printed in decimal. */
  function ShowAll(ages: seq<int>): (r: seq<string>)
    ensures |r| == |ages| && forall i :: 0 <= i < |ages| ==> r[i] == Show(ages[i])
  {
    seq(|ages|, i requires 0 <= i < |ages| => Show(ages[i]))
  }

  /** No printed age holds a comma, and none starts with whitespace. */
  lemma ShowAllParts(ages: seq<int>)
    ensures forall i :: 0 <= i < |ages| ==> ',' !in ShowAll(ages)[i] && ShowAll(ages)[i] != []
    ensures ages != [] ==> !IsWhitespace(ShowAll(ages)[0][0])
  {
    forall i | 0 <= i < |ages| ensures ',' !in ShowAll(ages)[i] {
      var s := Show(ages[i]);
      assert forall j :: 0 <= j < |s| ==> IsDigit(s[j]) || s[j] == '-';
    }
  }

  /** A printed integer is its own trim and reads back through parseInt. */
  lemma AgeOfShow(n: int)
    requires IsInt(n)
    ensures AgeOf(Show(n)) == Some(n)
  {
    var s := Show(n);
    assert !IsTrimmed(s[0]) && !IsTrimmed(s[|s| - 1]);
    ParseShow(n);
  }

  /** Parts that each hold one age give those ages, in order. */
  lemma {:induction false} AgesOfEach(parts: seq<string>, ages: seq<int>)
    requires |parts| == |ages|
    requires forall i :: 0 <= i < |parts| ==> AgeOf(parts[i]) == Some(ages[i])
    ensures AgesOf(parts) == ages
    decreases |parts|
  {
    if parts != [] {
      var n := |parts| - 1;
      forall i | 0 <= i < n ensures AgeOf(parts[..n][i]) == Some(ages[..n][i]) {
        assert parts[..n][i] == parts[i] && ages[..n][i] == ages[i];
      }
      AgesOfEach(parts[..n], ages[..n]);
      FrontLast(parts);
      AgesOfSnoc(parts[..n], parts[n]);
      FrontLast(ages);
    }
  }

  lemma AgesOfSnoc(parts: seq<string>, p: string)
    ensures AgesOf(parts + [p]) == AgesOf(parts) + (match AgeOf(p) case Some(a) => [a] case None => [])
  {
    assert (parts + [p])[..|parts|] == parts;
  }

  /** Reading one more part adds that part's age, if it has one. */
  lemma AgesOfStep(parts: seq<string>, i: nat)
    requires i < |parts|
    ensures AgesOf(parts[..i + 1]) == AgesOf(parts[..i]) + (match AgeOf(parts[i]) case Some(a) => [a] case None => [])
  {
    var front := parts[..i + 1];
    assert front[..i] == parts[..i] && front[i] == parts[i];
  }

  /** The first character of a join is that of its first part. */
  lemma JoinStart(parts: seq<string>, sep: char)
    requires parts != [] && parts[0] != []
    ensures Join(parts, sep) != [] && Join(parts, sep)[0] == parts[0][0]
  {
  }

  /** Writing ages as comma-separated decimals and parsing them back gives
      the same ages in the same order. */
  lemma ChildrenAgesRoundTrip(ages: seq<int>)
    requires forall i :: 0 <= i < |ages| ==> IsInt(ages[i])
    ensures ChildrenAges(Some(Join(ShowAll(ages), ','))) == ages
  {
    var parts := ShowAll(ages);
    var text := Join(parts, ',');
    if ages != [] {
      ShowAllParts(ages);
      JoinStart(parts, ',');
      assert !IsWhitespace(text[0]);
      SplitJoin(parts, ',');
      forall i | 0 <= i < |ages| ensures AgeOf(parts[i]) == Some(ages[i]) {
        AgeOfShow(ages[i]);
      }
      AgesOfEach(parts, ages);
    }
  }

  // ---- Phones --------------------------------------------------------------

  /** replaceAll("\\D", ""): the ASCII digits of the text, in order. */
  function Digits(s: string): (r: string)
    ensures AllDigits(r) && |r| <= |s|
    ensures AllDigits(s) ==> r == s
    ensures (forall i :: 0 <= i < |s| ==> !IsDigit(s[i])) ==> r == []
  {
    if s == [] then []
    else (if IsDigit(s[0]) then [s[0]] else []) + Digits(s[1..])
  }

  /** Taking the digits of a concatenation takes them part by part. */
  lemma {:induction false} DigitsConcat(a: string, b: string)
    ensures Digits(a + b) == Digits(a) + Digits(b)
    decreases |a|
  {
    if a != [] {
      var head := if IsDigit(a[0]) then [a[0]] else [];
      assert (a + b)[0] == a[0] && (a + b)[1..] == a[1..] + b;
      assert Digits(a + b) == head + Digits(a[1..] + b);
      DigitsConcat(a[1..], b);
      assert Digits(a) == head + Digits(a[1..]);
    } else {
      assert a + b == b;
    }
  }

  /** Punctuation and spaces anywhere in a phone number do not change its
      digits. */
  lemma InsertNonDigit(a: string, c: char, b: string)
    requires !IsDigit(c)
    ensures Digits(a + [c] + b) == Digits(a + b)
  {
    DigitsConcat(a + [c], b);
    DigitsConcat(a, [c]);
    DigitsConcat(a, b);
  }

  /** normalizePhone: "" for null, otherwise the digits. */
  function NormalizePhone(phone: Option<string>): (r: string)
    ensures AllDigits(r)
    ensures phone.None? ==> r == ""
    ensures phone.Some? && AllDigits(phone.value) ==> r == phone.value
  {
    match phone
    case None => ""
    case Some(p) => Digits(p)
  }

  /** phonesMatch: the stored phone has digits, and the same digits as the
      given one. */
  predicate PhonesMatch(left: Option<string>, right: Option<string>) {
    var l := NormalizePhone(left);
    l != [] && l == NormalizePhone(right)
  }

  /** Matching is symmetric, and a phone without digits matches nothing. */
  lemma PhonesMatchSymmetric(left: Option<string>, right: Option<string>)
    ensures PhonesMatch(left, right) <==> PhonesMatch(right, left)
    ensures NormalizePhone(left) == [] ==> !PhonesMatch(left, right) && !PhonesMatch(right, left)
  {
  }

  /** A number with a space, bracket or dash inserted matches the number
      as written without it, both ways round. */
  lemma PunctuatedPhoneMatches(a: string, c: char, b: string)
    requires !IsDigit(c) && Digits(a + b) != []
    ensures PhonesMatch(Some(a + [c] + b), Some(a + b))
    ensures PhonesMatch(Some(a + b), Some(a + [c] + b))
  {
    InsertNonDigit(a, c, b);
  }

  /** A blank phone has no digits. */
  lemma BlankHasNoDigits(phone: string)
    requires IsBlank(phone)
    ensures Digits(phone) == []
  {
    assert forall i :: 0 <= i < |phone| ==> !IsDigit(phone[i]);
  }

  // ---- Access and lookup ---------------------------------------------------

  /** hasAccess: false without an id, without a phone or with a blank
      one, and for an unknown user; otherwise whether the phones match.
      The blank check never decides anything on its own: a blank phone has
      no digits and so matches nothing. */
  function HasAccess(users: map<int, User>, userId: Option<int>, phone: Option<string>): (r: bool)
    ensures userId.None? || phone.None? || IsBlank(phone.value) ==> !r
    ensures userId.Some? && userId.value !in users ==> !r
    ensures r <==> userId.Some? && userId.value in users && PhonesMatch(users[userId.value].phone, phone)
  {
    if userId.None? || phone.None? then false
    else if IsBlank(phone.value) then
      BlankHasNoDigits(phone.value);
      false
    else userId.value in users && PhonesMatch(users[userId.value].phone, phone)
  }

  /** The lookup request: a user id and a phone, either possibly null. */
  datatype LookupRequest = LookupRequest(userId: Option<int>, phone: Option<string>)

  /** PublicChildrenSelfResponse. */
  datatype SelfResponse = SelfResponse(
    userId: int,
    childrenCount: Option<int>,
    childrenAges: seq<int>,
    childrenStudyQuran: Option<bool>,
    readingLevel: Option<ReadingLevel>)

  function ToSelfResponse(u: User): (r: SelfResponse)
    ensures r.userId == u.userId && r.childrenCount == u.childrenCount && r.childrenAges == ChildrenAges(u.childrenAges)
    ensures r.childrenStudyQuran == u.childrenStudyQuran && r.readingLevel == u.readingLevel
  {
    SelfResponse(u.userId, u.childrenCount, ChildrenAges(u.childrenAges), u.childrenStudyQuran, u.readingLevel)
  }

  /** lookupSelf: the profile of the requested user, only when the phones
      match; it answers exactly when hasAccess grants access. */
  function LookupSelf(users: map<int, User>, request: LookupRequest): (r: Option<SelfResponse>)
    ensures r.Some? <==> HasAccess(users, request.userId, request.phone)
    ensures r.Some? ==> r.value == ToSelfResponse(users[request.userId.value])
    ensures r.Some? ==> r.value.userId == request.userId.value || users[request.userId.value].userId != request.userId.value
  {
    if request.userId.None? || request.userId.value !in users then None
    else
      var u := users[request.userId.value];
      if PhonesMatch(u.phone, request.phone) then Some(ToSelfResponse(u)) else None
  }

  // ---- Statistics ----------------------------------------------------------

  /** valueOrZero(childrenCount) > 0. */
  predicate WithChildren(u: User) {
    u.childrenCount.GetOr(0) > 0
  }

  predicate WithoutChildren(u: User) {
    !WithChildren(u)
  }

  predicate StudyTrue(u: User) {
    WithChildren(u) && u.childrenStudyQuran == Some(true)
  }

  predicate StudyFalse(u: User) {
    WithChildren(u) && u.childrenStudyQuran == Some(false)
  }

  predicate StudyUnknown(u: User) {
    WithChildren(u) && u.childrenStudyQuran.None?
  }

  /** The number of users satisfying a predicate: a stream's filter and
      count. */
  function Count(users: seq<User>, p: User -> bool): (n: nat)
    ensures n <= |users|
  {
    if users == [] then 0 else (if p(users[0]) then 1 else 0) + Count(users[1..], p)
  }

  /** With and without children split the users; true, false and unknown
      split those with children. */
  lemma {:induction false} CountPartition(users: seq<User>)
    ensures Count(users, WithChildren) + Count(users, WithoutChildren) == |users|
    ensures Count(users, StudyTrue) + Count(users, StudyFalse) + Count(users, StudyUnknown) == Count(users, WithChildren)
    decreases |users|
  {
    if users != [] {
      CountPartition(users[1..]);
      var u := users[0];
      if WithChildren(u) {
        match u.childrenStudyQuran
        case None => assert StudyUnknown(u);
        case Some(b) => assert StudyTrue(u) || StudyFalse(u);
      }
    }
  }

  /** PublicChildrenStatsResponse. */
  datatype Stats = Stats(
    totalUsers: int,
    usersWithChildren: int,
    usersWithoutChildren: int,
    studyTrue: int,
    studyFalse: int,
    studyUnknown: int)

  /** getStats: the two differences the source computes are the counts of
      users without children and of users with children whose answer is
      unknown, so no figure is ever negative. */
  function GetStats(users: seq<User>): (s: Stats)
    ensures s.totalUsers == |users| && s.usersWithChildren == Count(users, WithChildren)
    ensures s.usersWithChildren + s.usersWithoutChildren == s.totalUsers
    ensures s.studyTrue + s.studyFalse + s.studyUnknown == s.usersWithChildren
    ensures s.usersWithoutChildren == Count(users, WithoutChildren)
    ensures s.studyTrue == Count(users, StudyTrue) && s.studyFalse == Count(users, StudyFalse)
    ensures s.studyUnknown == Count(users, StudyUnknown)
    ensures s.usersWithChildren >= 0 && s.usersWithoutChildren >= 0
    ensures s.studyTrue >= 0 && s.studyFalse >= 0 && s.studyUnknown >= 0
  {
    var total := |users|;
    var withChildren := Count(users, WithChildren);
    var studyTrue := Count(users, StudyTrue);
    var studyFalse := Count(users, StudyFalse);
    CountPartition(users);
    Stats(total, withChildren, total - withChildren, studyTrue, studyFalse, withChildren - studyTrue - studyFalse)
  }
}
