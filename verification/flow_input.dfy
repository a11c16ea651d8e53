/** The flow engine's pure input helpers: name, age and yes/no validation,
    the /start command's words, the comma-separated temporary tags, and the
    referral link and idempotency key builders. */
module FlowInput {
  import opened Wrappers
  import opened Domain
  import opened JavaText
  import opened Decimal

  // ---- Names ---------------------------------------------------------------

  /** `\p{L}`, restricted to the scripts the model knows: ASCII and Latin-1
      letters, Latin Extended-A and -B, and the Cyrillic letters. */
  predicate IsLetter(c: char) {
    ('A' <= c <= 'Z') || ('a' <= c <= 'z')
    || c == '\U{00AA}' || c == '\U{00B5}' || c == '\U{00BA}'
    || ('\U{00C0}' <= c <= '\U{024F}' && c != '\U{00D7}' && c != '\U{00F7}')
    || ('\U{0400}' <= c <= '\U{0481}') || ('\U{048A}' <= c <= '\U{04FF}')
  }

  /** The character class `[\p{L}\s-]`. */
  predicate IsNameChar(c: char) {
    IsLetter(c) || IsRegexSpace(c) || c == '-'
  }

  /** NAME_PATTERN `^[\p{L}][\p{L}\s-]{1,49}$`. */
  predicate MatchesNamePattern(t: string) {
    2 <= |t| <= 50 && IsLetter(t[0]) && forall i :: 1 <= i < |t| ==> IsNameChar(t[i])
  }

  /** isValidName: the trimmed text is 2..50 long and matches the pattern. */
  predicate IsValidName(name: string) {
    var t := Trim(name);
    2 <= |t| && |t| <= 50 && MatchesNamePattern(t)
  }

  // ---- Age and yes/no ------------------------------------------------------

  /** parseAge: Integer.parseInt of the trimmed text, kept when in 7..100. */
  function ParseAge(text: string): (r: Option<int>)
    ensures r.Some? ==> 7 <= r.value <= 100
    ensures r.Some? <==> ParseSigned(Trim(text)).Some? && 7 <= ParseSigned(Trim(text)).value <= 100
    ensures r.Some? ==> ParseSigned(Trim(text)) == r
  {
    match ParseInt(Trim(text))
    case None => None
    case Some(age) => if age < 7 || age > 100 then None else Some(age)
  }

  const YES_WORDS: set<string> := {"да", "yes", "y"}
  const NO_WORDS: set<string> := {"нет", "no", "n"}

  /** No word is both a yes and a no. */
  lemma YesNoDisjoint(w: string)
    ensures !(w in YES_WORDS && w in NO_WORDS)
  {
    if w in YES_WORDS {
      assert w == "да" || w == "yes" || w == "y";
    }
  }

  /** parseYesNo: null for blank text; otherwise the lower-cased trimmed
      text decides. */
  function ParseYesNo(text: string): (r: Option<bool>)
    ensures r == Some(true) <==> !IsBlank(text) && Lower(Trim(text)) in YES_WORDS
    ensures r == Some(false) <==> !IsBlank(text) && Lower(Trim(text)) in NO_WORDS
    ensures r.None? <==> IsBlank(text) || (Lower(Trim(text)) !in YES_WORDS && Lower(Trim(text)) !in NO_WORDS)
  {
    if IsBlank(text) then None
    else
      var w := Lower(Trim(text));
      YesNoDisjoint(w);
      if w in YES_WORDS then Some(true)
      else if w in NO_WORDS then Some(false)
      else None
  }

  // ---- The /start command --------------------------------------------------

  /** The length of the leading run of non-`\s` characters. */
  function WordEnd(s: string): (k: nat)
    ensures k <= |s|
    ensures forall j :: 0 <= j < k ==> !IsRegexSpace(s[j])
    ensures k == |s| || IsRegexSpace(s[k])
  {
    if s == [] || IsRegexSpace(s[0]) then 0 else 1 + WordEnd(s[1..])
  }

  /** `s.split("\\s+")` for a string that does not start with `\s` (the
      command text is trimmed, and every `\s` character is trimmed): the
      maximal runs of non-space characters, in order. */
  function Words(s: string): (r: seq<string>)
    ensures forall i :: 0 <= i < |r| ==> r[i] != [] && forall j :: 0 <= j < |r[i]| ==> !IsRegexSpace(r[i][j])
    decreases |s|
  {
    if s == [] then []
    else if IsRegexSpace(s[0]) then Words(s[1..])
    else
      var k := WordEnd(s);
      [s[..k]] + Words(s[k..])
  }

  predicate SpaceFree(s: string) {
    forall j :: 0 <= j < |s| ==> !IsRegexSpace(s[j])
  }

  /** A non-empty space-free string is one word. */
  lemma OneWord(s: string)
    requires s != [] && SpaceFree(s)
    ensures Words(s) == [s]
  {
    WordEndAll(s);
    assert s[..|s|] == s;
    assert s[|s|..] == [];
  }

  lemma {:induction false} WordEndAll(s: string)
    requires SpaceFree(s)
    ensures WordEnd(s) == |s|
    decreases |s|
  {
    if s != [] {
      WordEndAll(s[1..]);
    }
  }

  /** Two space-free words joined by one blank split back into the two. */
  lemma {:induction false} TwoWords(a: string, b: string)
    requires a != [] && b != [] && SpaceFree(a) && SpaceFree(b)
    ensures Words(a + " " + b) == [a, b]
  {
    var s := a + " " + b;
    assert s == a + (" " + b);
    WordEndOfPrefix(a, " " + b);
    assert WordEnd(s) == |a|;
    assert s[..|a|] == a;
    assert s[|a|..] == " " + b;
    assert (" " + b)[1..] == b;
    OneWord(b);
  }

  lemma {:induction false} WordEndOfPrefix(a: string, rest: string)
    requires SpaceFree(a) && rest != [] && IsRegexSpace(rest[0])
    ensures WordEnd(a + rest) == |a|
    decreases |a|
  {
    if a != [] {
      assert (a + rest)[1..] == a[1..] + rest;
      WordEndOfPrefix(a[1..], rest);
    } else {
      assert a + rest == rest;
    }
  }

  // ---- Temporary tags ------------------------------------------------------

  /** A tag as parseTags yields it: non-empty, trimmed, comma-free. */
  predicate IsParsedTag(t: string) {
    t != [] && Trim(t) == t && ',' !in t
  }

  predicate Distinct(tags: seq<string>) {
    forall a, b :: 0 <= a < b < |tags| ==> tags[a] != tags[b]
  }

  /** LinkedHashSet.add: append unless present. */
  function AddIfAbsent(tags: seq<string>, t: string): (r: seq<string>)
    ensures Distinct(tags) ==> Distinct(r)
    ensures t in r && forall x :: x in r <==> x in tags || x == t
  {
    if t in tags then tags else tags + [t]
  }

  predicate AllParsed(tags: seq<string>) {
    forall t :: t in tags ==> IsParsedTag(t)
  }

  predicate CommaFree(pieces: seq<string>) {
    forall p :: p in pieces ==> ',' !in p
  }

  /** A trimmed comma-free piece is a parsed tag unless it is empty. */
  lemma TrimmedPiece(p: string)
    requires ',' !in p
    ensures Trim(p) != [] ==> IsParsedTag(Trim(p))
  {
    TrimIdempotent(p);
  }

  /** Adds the trimmed non-empty pieces to `acc` in order, skipping repeats. */
  function Collect(acc: seq<string>, pieces: seq<string>): (r: seq<string>)
    requires Distinct(acc) && AllParsed(acc) && CommaFree(pieces)
    ensures Distinct(r) && AllParsed(r)
    decreases |pieces|
  {
    if pieces == [] then acc
    else
      var t := Trim(pieces[0]);
      TrimmedPiece(pieces[0]);
      var acc' := if t != [] then AddIfAbsent(acc, t) else acc;
      assert AllParsed(acc');
      Collect(acc', pieces[1..])
  }

  /** parseTags: the distinct trimmed non-empty comma-separated pieces, in
      first-occurrence order; nothing for null or blank text. */
  function ParseTags(raw: Option<string>): (r: seq<string>)
    ensures Distinct(r) && AllParsed(r)
    ensures raw.None? || IsBlank(raw.value) ==> r == []
  {
    if raw.None? || IsBlank(raw.value) then [] else Collect([], SplitOn(raw.value, ','))
  }

  /** addTempTag: parse, add the tag, and join back with commas. */
  function AddTempTag(raw: Option<string>, tag: string): string {
    Join(AddIfAbsent(ParseTags(raw), tag), ',')
  }

  /** Collecting pieces that are already distinct parsed tags keeps them all. */
  lemma {:induction false} CollectClean(acc: seq<string>, pieces: seq<string>)
    requires Distinct(acc + pieces) && AllParsed(acc) && AllParsed(pieces)
    ensures Distinct(acc) && CommaFree(pieces)
    ensures Collect(acc, pieces) == acc + pieces
    decreases |pieces|
  {
    assert forall i :: 0 <= i < |acc| ==> (acc + pieces)[i] == acc[i];
    if pieces != [] {
      var p := pieces[0];
      assert (acc + pieces)[|acc|] == p;
      assert p in pieces;
      assert forall q :: q in pieces[1..] ==> q in pieces;
      assert p !in acc by {
        forall i | 0 <= i < |acc| ensures acc[i] != p {
          assert (acc + pieces)[i] == acc[i];
        }
      }
      assert AddIfAbsent(acc, p) == acc + [p];
      assert acc + pieces == (acc + [p]) + pieces[1..];
      CollectClean(acc + [p], pieces[1..]);
    }
  }

  /** A comma-joined list of distinct parsed tags parses back to the list,
      provided one of them is not blank (otherwise the joined text could be
      blank). */
  lemma ParseJoin(tags: seq<string>, w: nat)
    requires Distinct(tags) && AllParsed(tags)
    requires w < |tags| && !IsBlank(tags[w])
    ensures ParseTags(Some(Join(tags, ','))) == tags
  {
    var s := Join(tags, ',');
    assert ParseTags(Some(s)) == Collect([], tags) by {
      JoinNotBlank(tags, w);
      forall i | 0 <= i < |tags| ensures ',' !in tags[i] {
        assert tags[i] in tags;
      }
      SplitJoin(tags, ',');
    }
    assert [] + tags == tags;
    CollectClean([], tags);
  }

  lemma {:induction false} JoinNotBlank(tags: seq<string>, w: nat)
    requires w < |tags| && !IsBlank(tags[w])
    ensures !IsBlank(Join(tags, ','))
    decreases |tags|
  {
    var s := Join(tags, ',');
    if |tags| > 1 {
      assert s[|tags[0]|] == ',';
      assert !IsWhitespace(',');
    }
  }

  /** Adding a non-blank tag extends the parsed set by exactly that tag,
      keeping the earlier tags in order. */
  lemma TempTagsAccumulate(raw: Option<string>, tag: string)
    requires IsParsedTag(tag) && !IsBlank(tag)
    ensures ParseTags(Some(AddTempTag(raw, tag))) == AddIfAbsent(ParseTags(raw), tag)
  {
    var tags := AddIfAbsent(ParseTags(raw), tag);
    var k :| 0 <= k < |tags| && tags[k] == tag;
    ParseJoin(tags, k);
  }

  // ---- Referral link and idempotency key -----------------------------------

  const DEFAULT_BOT_USERNAME := "tajwid_bot"

  /** The bot username a link names: the configured one, "tajwid_bot" when
      null or blank, without one leading '@'. */
  function LinkUsername(botUsername: Option<string>): (u: string)
    ensures botUsername.None? || IsBlank(botUsername.value) ==> u == DEFAULT_BOT_USERNAME
  {
    assert DEFAULT_BOT_USERNAME[0] == 't';
    var name := if botUsername.None? || IsBlank(botUsername.value) then DEFAULT_BOT_USERNAME else botUsername.value;
    if StartsWith(name, "@") then name[1..] else name
  }

  /** buildReferralLink: a t.me deep link whose start parameter is the
      referrer's id. */
  function BuildReferralLink(botUsername: Option<string>, referrerUserId: int): (link: string)
    ensures |link| > |"?start="| + |Show(referrerUserId)|
  {
    "https://t.me/" + LinkUsername(botUsername) + "?start=" + Show(referrerUserId)
  }

  const START_MARKER: string := "?start="

  /** The position of the last "?start=" that begins at or before `i`. */
  function LastMarkerAt(link: string, i: int): (r: Option<nat>)
    requires i + |START_MARKER| <= |link|
    ensures r.Some? ==> r.value <= i && link[r.value..r.value + |START_MARKER|] == START_MARKER
    decreases i + 1
  {
    if i < 0 then None
    else if link[i..i + |START_MARKER|] == START_MARKER then Some(i)
    else LastMarkerAt(link, i - 1)
  }

  /** The start parameter of a deep link, which Telegram hands to the bot
      after "/start ": the text after the link's last "?start=". */
  function StartParameter(link: string): (r: Option<string>)
    ensures r.Some? ==> |r.value| <= |link| - |START_MARKER| && r.value == link[|link| - |r.value|..]
  {
    if |link| < |START_MARKER| then None
    else
      match LastMarkerAt(link, |link| - |START_MARKER|)
      case Some(i) => Some(link[i + |START_MARKER|..])
      case None => None
  }

  /** A marker at `k` with no '?' after it up to `i` is the last one. */
  lemma {:induction false} LastMarkerFound(link: string, i: int, k: nat)
    requires k <= i && i + |START_MARKER| <= |link|
    requires link[k..k + |START_MARKER|] == START_MARKER
    requires forall j :: k < j <= i ==> link[j] != '?'
    ensures LastMarkerAt(link, i) == Some(k)
    decreases i - k
  {
    if i > k {
      assert link[i..i + |START_MARKER|][0] == link[i];
      LastMarkerFound(link, i - 1, k);
    }
  }

  /** A marker followed by text without '?' ends the link: that text is
      the start parameter, whatever comes before the marker. */
  lemma StartParameterAfterMarker(head: string, p: string)
    requires forall j :: 0 <= j < |p| ==> p[j] != '?'
    ensures StartParameter(head + START_MARKER + p) == Some(p)
  {
    var link := head + START_MARKER + p;
    var k := |head|;
    assert link[k..k + |START_MARKER|] == START_MARKER;
    forall j | k < j <= |link| - |START_MARKER|
      ensures link[j] != '?'
    {
      if j < k + |START_MARKER| {
        assert link[j] == START_MARKER[j - k];
      } else {
        assert link[j] == p[j - k - |START_MARKER|];
      }
    }
    LastMarkerFound(link, |link| - |START_MARKER|, k);
    assert link[k + |START_MARKER|..] == p;
  }

  /** The link's start parameter is the referrer's id as Long.toString
      prints it, and Long.parseLong, as the /start handler applies it,
      reads it back as that id. */
  lemma LinkCarriesReferrer(botUsername: Option<string>, referrerUserId: int)
    ensures StartParameter(BuildReferralLink(botUsername, referrerUserId)) == Some(Show(referrerUserId))
    ensures IsLong(referrerUserId) ==> ParseLong(StartParameter(BuildReferralLink(botUsername, referrerUserId)).value) == Some(referrerUserId)
  {
    var p := Show(referrerUserId);
    StartParameterAfterMarker("https://t.me/" + LinkUsername(botUsername), p);
    if IsLong(referrerUserId) {
      ParseLongShow(referrerUserId);
    }
  }

  /** buildIdempotencyKey: "ref:<referrer>:<invitee>". */
  function IdempotencyKey(referrerUserId: int, inviteeUserId: int): (key: string)
    ensures StartsWith(key, "ref:") && ':' !in Show(referrerUserId)
  {
    ShowHasNoColon(referrerUserId);
    "ref:" + Show(referrerUserId) + ":" + Show(inviteeUserId)
  }

  lemma ShowHasNoColon(n: int)
    ensures ':' !in Show(n)
  {
  }

  /** Distinct pairs get distinct keys. */
  lemma {:induction false} IdempotencyKeyInjective(r1: int, i1: int, r2: int, i2: int)
    requires IdempotencyKey(r1, i1) == IdempotencyKey(r2, i2)
    ensures r1 == r2 && i1 == i2
  {
    var a := Show(r1) + ":" + Show(i1);
    var b := Show(r2) + ":" + Show(i2);
    var key := IdempotencyKey(r1, i1);
    assert key[4..] == a;
    assert IdempotencyKey(r2, i2)[4..] == b;
    ShowHasNoColon(r1);
    ShowHasNoColon(r2);
    var k1 := IndexOf(a, ':');
    var k2 := IndexOf(b, ':');
    ColonPosition(Show(r1), Show(i1));
    ColonPosition(Show(r2), Show(i2));
    assert Show(r1) == a[..k1] == b[..k2] == Show(r2);
    assert Show(i1) == a[k1 + 1..] == b[k2 + 1..] == Show(i2);
    ShowInjective(r1, r2);
    ShowInjective(i1, i2);
  }

  lemma ColonPosition(x: string, y: string)
    requires ':' !in x
    ensures ':' in x + ":" + y
    ensures IndexOf(x + ":" + y, ':') == |x|
    ensures (x + ":" + y)[..|x|] == x && (x + ":" + y)[|x| + 1..] == y
  {
    var s := x + ":" + y;
    assert s[|x|] == ':';
    assert s[..|x|] == x;
  }

  /** The bot's `normalizeUsername`: trimmed, one leading '@' dropped, and
      null when nothing is left. */
  function NormalizeUsername(value: Option<string>): (r: Option<string>)
    ensures r.Some? ==> !IsBlank(r.value)
    ensures Normalize(value).None? ==> r.None?
    ensures r.Some? ==> Normalize(value).Some? && (Normalize(value).value == r.value || Normalize(value).value == "@" + r.value)
    ensures Normalize(value).Some? && Normalize(value).value[0] != '@' && !IsBlank(Normalize(value).value) ==> r == Normalize(value)
    ensures Normalize(value).Some? && Normalize(value).value[0] == '@' ==>
      r == (if IsBlank(Normalize(value).value[1..]) then None else Some(Normalize(value).value[1..]))
  {
    match Normalize(value)
    case None => None
    case Some(n) =>
      var m := if StartsWith(n, "@") then n[1..] else n;
      assert n == m || n == "@" + m;
      if IsBlank(m) then None else Some(m)
  }

  /** parseReadingLevel: valueOf of what follows the prefix. */
  function ParseReadingLevel(callback: string, prefix: string): (r: Option<ReadingLevel>)
    requires StartsWith(callback, prefix)
    ensures r.Some? ==> r.value.Name() == callback[|prefix|..]
    ensures r.None? <==> forall l: ReadingLevel :: l.Name() != callback[|prefix|..]
  {
    ValueOf(callback[|prefix|..])
  }
}
