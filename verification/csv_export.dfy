/** AdminExportService's CSV exports. A cell is the String.valueOf of a
    column, or null. A cell is quoted exactly when it holds a comma, a
    double quote, LF or CR, and a quoted cell doubles its inner quotes, as
    section 2 of RFC 4180 says. Records end in LF rather than CRLF.
    ParseCsvText reads that format, and reading any export back gives
    the header and then every row's cells, in order. */
module CsvExport {
  import opened Wrappers
  import opened Decimal
  import opened Domain
  import opened JavaText
  import Persistence
  import Seqs

  /** A column as String.valueOf prints it; None is a null column. */
  type Cell = Option<string>

  /** The characters that force a cell into quotes. */
  predicate IsSpecial(c: char) {
    c == ',' || c == '"' || c == '\n' || c == '\r'
  }

  predicate MustQuote(text: string) {
    exists i :: 0 <= i < |text| && IsSpecial(text[i])
  }

  /** text.replace("\"", "\"\""): every quote doubled, nothing else
      touched. */
  function DoubleQuotes(text: string): (r: string)
    ensures |r| >= |text|
    ensures '"' !in text ==> r == text
  {
    if text == [] then []
    else (if text[0] == '"' then "\"\"" else [text[0]]) + DoubleQuotes(text[1..])
  }

  /** escapeCsvValue: "" for null; the text itself when nothing in it needs
      quoting; otherwise the text in quotes with its quotes doubled. */
  function EscapeCsvValue(value: Cell): (r: string)
    ensures value.None? ==> r == ""
    ensures value.Some? && !MustQuote(value.value) ==> r == value.value
    ensures (|r| > 0 && r[0] == '"') <==> value.Some? && MustQuote(value.value)
  {
    match value
    case None => ""
    case Some(text) =>
      if !MustQuote(text) then
        assert text != [] ==> !IsSpecial(text[0]);
        text
      else "\"" + DoubleQuotes(text) + "\""
  }

  /** The text a reader gets back for a cell: null reads as empty. */
  function CellText(value: Cell): string {
    value.GetOr("")
  }

  function CellTexts(values: seq<Cell>): (r: seq<string>)
    ensures |r| == |values|
    ensures forall i :: 0 <= i < |values| ==> r[i] == CellText(values[i])
  {
    seq(|values|, i requires 0 <= i < |values| => CellText(values[i]))
  }

  // ---- Writing -------------------------------------------------------------

  /** Each cell of a row, escaped. */
  function EscapeAll(values: seq<Cell>): (r: seq<string>)
    ensures |r| == |values| && forall i :: 0 <= i < |values| ==> r[i] == EscapeCsvValue(values[i])
  {
    seq(|values|, i requires 0 <= i < |values| => EscapeCsvValue(values[i]))
  }

  /** One record: the escaped cells joined by commas, and a terminating
      LF. */
  function RowText(values: seq<Cell>): string {
    Join(EscapeAll(values), ',') + "\n"
  }

  /** Several records, one after another. */
  function RowsText(rows: seq<seq<Cell>>): string {
    if rows == [] then "" else RowText(rows[0]) + RowsText(rows[1..])
  }

  /** The whole document: the header record, then the data records. */
  function CsvText(header: seq<string>, rows: seq<seq<Cell>>): string {
    RowText(HeaderCells(header)) + RowsText(rows)
  }

  /** What a reader should get back for a list of rows. */
  function Records(rows: seq<seq<Cell>>): (r: seq<seq<string>>)
    ensures |r| == |rows| && forall i :: 0 <= i < |rows| ==> r[i] == CellTexts(rows[i])
  {
    seq(|rows|, i requires 0 <= i < |rows| => CellTexts(rows[i]))
  }

  /** A header is a list of non-null strings. */
  function HeaderCells(header: seq<string>): (r: seq<Cell>)
    ensures |r| == |header| && CellTexts(r) == header
  {
    seq(|header|, i requires 0 <= i < |header| => Some(header[i]))
  }

  /** Appending one more part to a non-empty join adds the separator and
      the part. */
  lemma {:induction false} JoinSnoc(parts: seq<string>, p: string, sep: char)
    requires parts != []
    ensures Join(parts + [p], sep) == Join(parts, sep) + [sep] + p
    decreases |parts|
  {
    if |parts| > 1 {
      assert (parts + [p])[1..] == parts[1..] + [p];
      JoinSnoc(parts[1..], p, sep);
    } else {
      assert (parts + [p])[1..] == [p];
    }
  }

  /** Joining one more part extends the joined prefix by a comma (unless it
      is the first part) and that part. */
  lemma JoinPrefixStep(parts: seq<string>, i: nat)
    requires i < |parts|
    ensures Join(parts[..i + 1], ',') == Join(parts[..i], ',') + ((if i == 0 then "" else ",") + parts[i])
  {
    assert parts[..i + 1] == parts[..i] + [parts[i]];
    if i > 0 {
      JoinSnoc(parts[..i], parts[i], ',');
    } else {
      assert parts[..i] + [parts[i]] == [parts[i]];
    }
  }

  /** The loop of appendCsvRow: each part, with a comma before every part
      but the first. */
  method AppendJoined(csv: string, parts: seq<string>) returns (r: string)
    ensures r == csv + Join(parts, ',')
  {
    r := csv;
    var i := 0;
    while i < |parts|
      invariant 0 <= i <= |parts|
      invariant r == csv + Join(parts[..i], ',')
    {
      JoinPrefixStep(parts, i);
      var piece := (if i == 0 then "" else ",") + parts[i];
      r := r + piece;
      i := i + 1;
    }
    assert parts[..i] == parts;
  }

  /** appendCsvRow: the escaped cells, a comma before every cell but the
      first, and a LF. */
  method AppendCsvRow(csv: string, values: seq<Cell>) returns (r: string)
    ensures r == csv + RowText(values)
  {
    r := AppendJoined(csv, EscapeAll(values));
    r := r + "\n";
  }

  /** The loop of buildCsv: each row's record, in order. */
  method AppendRows(csv: string, rows: seq<seq<Cell>>) returns (r: string)
    ensures r == csv + RowsText(rows)
    decreases |rows|
  {
    if rows == [] {
      r := csv;
    } else {
      var next := AppendCsvRow(csv, rows[0]);
      r := AppendRows(next, rows[1..]);
      Seqs.ConcatAssoc(csv, RowText(rows[0]), RowsText(rows[1..]));
    }
  }

  /** buildCsv: the header record, then each row's record in order. */
  method BuildCsv(header: seq<string>, rows: seq<seq<Cell>>) returns (csv: string)
    ensures csv == CsvText(header, rows)
    ensures rows == [] ==> csv == RowText(HeaderCells(header))
  {
    var head := AppendCsvRow("", HeaderCells(header));
    assert head == RowText(HeaderCells(header));
    csv := AppendRows(head, rows);
    assert rows == [] ==> RowsText(rows) == "";
  }

  // ---- Reading -------------------------------------------------------------

  /** The body of a quoted field, after its opening quote: up to the first
      quote that is not doubled, a doubled quote standing for one quote.
      Gives the text and what follows the closing quote; None when the
      closing quote is missing. */
  function ReadQuoted(s: string): (r: Option<(string, string)>)
    ensures r.Some? ==> |r.value.1| < |s|
    decreases |s|
  {
    if s == [] then None
    else if s[0] == '"' then
      if |s| >= 2 && s[1] == '"' then
        match ReadQuoted(s[2..])
        case None => None
        case Some((t, rest)) => Some(("\"" + t, rest))
      else Some(("", s[1..]))
    else
      match ReadQuoted(s[1..])
      case None => None
      case Some((t, rest)) => Some(([s[0]] + t, rest))
  }

  /** An unquoted field: everything up to the next comma or LF. */
  function ReadPlain(s: string): (r: (string, string))
    ensures |r.1| <= |s|
  {
    if s == [] || s[0] == ',' || s[0] == '\n' then ("", s)
    else
      var (t, rest) := ReadPlain(s[1..]);
      ([s[0]] + t, rest)
  }

  function ReadField(s: string): (r: Option<(string, string)>)
    ensures r.Some? ==> |r.value.1| <= |s|
  {
    if s != [] && s[0] == '"' then ReadQuoted(s[1..]) else Some(ReadPlain(s))
  }

  /** One record: fields separated by commas and ended by LF. */
  function ReadRecord(s: string): (r: Option<(seq<string>, string)>)
    ensures r.Some? ==> |r.value.1| < |s|
    decreases |s|
  {
    match ReadField(s)
    case None => None
    case Some((field, rest)) =>
      if rest == [] then None
      else if rest[0] == '\n' then Some(([field], rest[1..]))
      else if rest[0] == ',' then
        match ReadRecord(rest[1..])
        case None => None
        case Some((fields, after)) => Some(([field] + fields, after))
      else None
  }

  /** A whole document as its records; None when it is not well formed. */
  function ParseCsv(s: string): (r: Option<seq<seq<string>>>)
    decreases |s|
  {
    if s == [] then Some([])
    else
      match ReadRecord(s)
      case None => None
      case Some((record, rest)) =>
        match ParseCsv(rest)
        case None => None
        case Some(records) => Some([record] + records)
  }

  // ---- Round trip ----------------------------------------------------------

  /** A separator or the end of the input follows a field. */
  predicate EndsField(rest: string) {
    rest == [] || rest[0] == ',' || rest[0] == '\n'
  }

  lemma {:induction false} ReadQuotedDoubled(t: string, rest: string)
    requires rest == [] || rest[0] != '"'
    ensures ReadQuoted(DoubleQuotes(t) + "\"" + rest) == Some((t, rest))
    decreases |t|
  {
    var s := DoubleQuotes(t) + "\"" + rest;
    if t == [] {
      assert s == "\"" + rest;
      Seqs.DropFront("\"", rest);
    } else {
      var h := if t[0] == '"' then "\"\"" else [t[0]];
      var tail := DoubleQuotes(t[1..]) + "\"" + rest;
      Seqs.ConcatAssoc(h, DoubleQuotes(t[1..]), "\"");
      Seqs.ConcatAssoc(h, DoubleQuotes(t[1..]) + "\"", rest);
      assert s == h + tail;
      Seqs.DropFront(h, tail);
      ReadQuotedDoubled(t[1..], rest);
      Seqs.HeadTail(t);
    }
  }

  lemma {:induction false} ReadPlainText(t: string, rest: string)
    requires !MustQuote(t) && EndsField(rest)
    ensures ReadPlain(t + rest) == (t, rest)
    decreases |t|
  {
    if t == [] {
      assert t + rest == rest;
    } else {
      assert !IsSpecial(t[0]);
      assert (t + rest)[1..] == t[1..] + rest;
      assert !MustQuote(t[1..]) by {
        forall i | 0 <= i < |t[1..]| ensures !IsSpecial(t[1..][i]) {
          assert t[1..][i] == t[i + 1];
        }
      }
      ReadPlainText(t[1..], rest);
      assert [t[0]] + t[1..] == t;
    }
  }

  /** An escaped cell followed by a separator reads back as the cell's
      text, stopping at the separator. */
  lemma ReadFieldEscaped(value: Cell, rest: string)
    requires rest != [] && (rest[0] == ',' || rest[0] == '\n')
    ensures ReadField(EscapeCsvValue(value) + rest) == Some((CellText(value), rest))
  {
    match value
    case None =>
      assert EscapeCsvValue(value) + rest == rest;
      ReadPlainText("", rest);
      assert "" + rest == rest;
    case Some(text) =>
      if MustQuote(text) {
        var s := EscapeCsvValue(value) + rest;
        assert s == "\"" + (DoubleQuotes(text) + "\"" + rest);
        assert s[1..] == DoubleQuotes(text) + "\"" + rest;
        ReadQuotedDoubled(text, rest);
      } else {
        ReadPlainText(text, rest);
        assert text != [] ==> !IsSpecial(text[0]);
      }
  }

  /** The record of a one-cell row reads back as that cell's text. */
  lemma ReadRecordSingle(value: Cell, rest: string)
    ensures ReadRecord(RowText([value]) + rest) == Some(([CellText(value)], rest))
  {
    var after := "\n" + rest;
    assert EscapeAll([value]) == [EscapeCsvValue(value)];
    assert RowText([value]) + rest == EscapeCsvValue(value) + after;
    ReadFieldEscaped(value, after);
    assert after[1..] == rest;
  }

  /** The record of a longer row is its first cell, a comma, and the record
      of the other cells. */
  lemma RowTextCons(values: seq<Cell>, rest: string)
    requires |values| > 1
    ensures RowText(values) + rest == EscapeCsvValue(values[0]) + ("," + (RowText(values[1..]) + rest))
  {
    var parts := EscapeAll(values);
    assert EscapeAll(values[1..]) == parts[1..];
    assert RowText(values) == EscapeCsvValue(values[0]) + "," + RowText(values[1..]);
  }

  lemma CellTextsCons(values: seq<Cell>)
    requires values != []
    ensures CellTexts(values) == [CellText(values[0])] + CellTexts(values[1..])
  {
  }

  /** An escaped cell, a comma, then the rest of the record. */
  lemma ReadRecordStep(value: Cell, tail: string, fields: seq<string>, rest: string)
    requires ReadRecord(tail) == Some((fields, rest))
    ensures ReadRecord(EscapeCsvValue(value) + ("," + tail)) == Some(([CellText(value)] + fields, rest))
  {
    ReadFieldEscaped(value, "," + tail);
    assert ("," + tail)[1..] == tail;
  }

  /** Reading the first field of a longer row and then the record of the
      other cells. */
  lemma ReadRecordCons(values: seq<Cell>, rest: string)
    requires |values| > 1
    requires ReadRecord(RowText(values[1..]) + rest) == Some((CellTexts(values[1..]), rest))
    ensures ReadRecord(RowText(values) + rest) == Some((CellTexts(values), rest))
  {
    ReadRecordStep(values[0], RowText(values[1..]) + rest, CellTexts(values[1..]), rest);
    RowTextCons(values, rest);
    CellTextsCons(values);
  }

  /** A record written for a non-empty row reads back as the row's texts,
      stopping right after its LF. */
  lemma {:induction false} ReadRecordRow(values: seq<Cell>, rest: string)
    requires values != []
    ensures ReadRecord(RowText(values) + rest) == Some((CellTexts(values), rest))
    decreases |values|
  {
    if |values| == 1 {
      ReadRecordSingle(values[0], rest);
      assert [values[0]] == values;
      assert CellTexts(values) == [CellText(values[0])];
    } else {
      ReadRecordRow(values[1..], rest);
      ReadRecordCons(values, rest);
    }
  }

  /** One record read off the front, then the rest of the document. */
  lemma ParseCsvStep(s: string, record: seq<string>, rest: string, records: seq<seq<string>>)
    requires s != [] && ReadRecord(s) == Some((record, rest)) && ParseCsv(rest) == Some(records)
    ensures ParseCsv(s) == Some([record] + records)
  {
  }

  lemma RecordsCons(rows: seq<seq<Cell>>)
    requires rows != []
    ensures Records(rows) == [CellTexts(rows[0])] + Records(rows[1..])
  {
    assert forall i :: 0 <= i < |rows| ==> Records(rows)[i] == ([CellTexts(rows[0])] + Records(rows[1..]))[i];
  }

  /** Records written for non-empty rows read back as the rows' texts. */
  lemma {:induction false} ParseRowsText(rows: seq<seq<Cell>>)
    requires forall i :: 0 <= i < |rows| ==> rows[i] != []
    ensures ParseCsv(RowsText(rows)) == Some(Records(rows))
    decreases |rows|
  {
    if rows != [] {
      var rest := RowsText(rows[1..]);
      assert RowsText(rows) == RowText(rows[0]) + rest;
      ReadRecordRow(rows[0], rest);
      assert forall i :: 0 <= i < |rows[1..]| ==> rows[1..][i] == rows[i + 1];
      ParseRowsText(rows[1..]);
      ParseCsvStep(RowText(rows[0]) + rest, CellTexts(rows[0]), rest, Records(rows[1..]));
      RecordsCons(rows);
    }
  }

  /** The round trip: reading a document back gives the header and then
      each row's texts, so every record has as many fields as its row has
      cells; nulls read back as empty fields. */
  lemma ParseCsvText(header: seq<string>, rows: seq<seq<Cell>>)
    requires header != []
    requires forall i :: 0 <= i < |rows| ==> rows[i] != []
    ensures ParseCsv(CsvText(header, rows)) == Some([header] + Records(rows))
  {
    ReadRecordRow(HeaderCells(header), RowsText(rows));
    ParseRowsText(rows);
  }

  // ---- The four exports ----------------------------------------------------

  /** How String.valueOf prints the two types the model keeps abstract:
      an Instant in ISO-8601 and a UUID in its canonical form. */
  datatype Formats = Formats(instant: Instant -> string, eventId: EventId -> string)

  function IntCell(n: Option<int>): Cell {
    match n case None => None case Some(v) => Some(Show(v))
  }

  function BoolText(b: bool): string {
    if b then "true" else "false"
  }

  function BoolCell(b: Option<bool>): Cell {
    match b case None => None case Some(v) => Some(BoolText(v))
  }

  function InstantCell(t: Option<Instant>, f: Formats): Cell {
    match t case None => None case Some(v) => Some(f.instant(v))
  }

  function LevelCell(l: Option<ReadingLevel>): Cell {
    match l case None => None case Some(v) => Some(v.Name())
  }

  const USERS_HEADER: seq<string> := [
    "user_id", "telegram_first_name", "telegram_username", "user_name", "age", "has_children",
    "children_count", "children_ages", "children_study_quran", "phone", "reading_level",
    "is_school_channel_subscribed", "is_course_channel_subscribed", "consent_given",
    "registration_completed", "registration_completed_at", "referrer_user_id", "referral_status",
    "referral_counted_at", "referral_points", "referral_link_cp", "created_at", "updated_at"]

  const FLOW_CONTEXTS_HEADER: seq<string> := [
    "user_id", "telegram_first_name", "telegram_username", "current_step", "flow_type", "user_name",
    "age", "has_children", "children_count", "children_ages", "children_study_quran",
    "children_age_index", "phone", "reading_level", "consent_given", "school_channel_subscribed",
    "referrer_user_id", "referral_entry_source", "referral_entry_at", "temp_tags",
    "referral_announcement_due_at", "referral_announcement_sent", "created_at", "updated_at"]

  const USER_TAGS_HEADER: seq<string> := ["user_id", "tag", "created_at"]

  const REFERRAL_LINK_USAGES_HEADER: seq<string> := [
    "referral_event_id", "referral_link", "referrer_user_id", "invitee_user_id", "idempotency_key",
    "is_already_counted", "counted_at", "trigger_source", "triggered_at", "created_at"]

  /** A user_tags row as the export reads it. */
  datatype UserTag = UserTag(userId: int, tag: string, createdAt: Instant)

  /** The 23 columns of a users row, in header order. */
  function UserCells(u: User, f: Formats): (r: seq<Cell>)
    ensures |r| == |USERS_HEADER| == 23
  {
    [Some(Show(u.userId)), u.telegramFirstName, u.telegramUsername, u.userName, IntCell(u.age),
     BoolCell(u.hasChildren), IntCell(u.childrenCount), u.childrenAges, BoolCell(u.childrenStudyQuran),
     u.phone, LevelCell(u.readingLevel), Some(BoolText(u.schoolChannelSubscribed)),
     Some(BoolText(u.courseChannelSubscribed)), Some(BoolText(u.consentGiven)),
     Some(BoolText(u.registrationCompleted)), InstantCell(u.registrationCompletedAt, f),
     Some(Show(u.referrerUserId)),
     match u.referralStatus case None => None case Some(s) => Some(s.Name()),
     InstantCell(u.referralCountedAt, f), Some(Show(u.referralPoints as int)), u.referralLinkCp,
     InstantCell(u.createdAt, f), InstantCell(u.updatedAt, f)]
  }

  /** The 24 columns of a flow_contexts row, in header order. */
  function ContextCells(c: FlowContext, f: Formats): (r: seq<Cell>)
    ensures |r| == |FLOW_CONTEXTS_HEADER| == 24
  {
    [Some(Show(c.userId)), c.telegramFirstName, c.telegramUsername,
     match c.currentStep case None => None case Some(s) => Some(s.Name()),
     match c.flowType case None => None case Some(t) => Some(t.Name()),
     c.userName, IntCell(c.age), BoolCell(c.hasChildren), IntCell(c.childrenCount), c.childrenAges,
     BoolCell(c.childrenStudyQuran), IntCell(c.childrenAgeIndex), c.phone, LevelCell(c.readingLevel),
     Some(BoolText(c.consentGiven)), Some(BoolText(c.schoolChannelSubscribed)),
     Some(Show(c.referrerUserId)), c.referralEntrySource, InstantCell(c.referralEntryAt, f), c.tempTags,
     InstantCell(c.referralAnnouncementDueAt, f), Some(BoolText(c.referralAnnouncementSent)),
     InstantCell(c.createdAt, f), InstantCell(c.updatedAt, f)]
  }

  /** The 3 columns of a user_tags row. */
  function TagCells(t: UserTag, f: Formats): (r: seq<Cell>)
    ensures |r| == |USER_TAGS_HEADER| == 3
  {
    [Some(Show(t.userId)), Some(t.tag), Some(f.instant(t.createdAt))]
  }

  /** The 10 columns of a referral_link_usages row. */
  function UsageCells(u: ReferralLinkUsage, f: Formats): (r: seq<Cell>)
    ensures |r| == |REFERRAL_LINK_USAGES_HEADER| == 10
  {
    [Some(f.eventId(u.referralEventId)), u.referralLink, Some(Show(u.referrerUserId)),
     Some(Show(u.inviteeUserId)), Some(u.idempotencyKey), Some(BoolText(u.alreadyCounted)),
     InstantCell(u.countedAt, f), Some(u.triggerSource), Some(f.instant(u.triggeredAt)),
     InstantCell(u.createdAt, f)]
  }

  /** The reading of an export: the header record, then one record per
      row in order, each with exactly the header's arity. */
  predicate ReadsAs(csv: string, header: seq<string>, rows: seq<seq<Cell>>) {
    ParseCsv(csv) == Some([header] + Records(rows))
    && forall i :: 0 <= i < |rows| ==> |Records(rows)[i]| == |header|
  }

  function UserRows(users: seq<User>, f: Formats): (r: seq<seq<Cell>>)
    ensures |r| == |users| && forall i :: 0 <= i < |users| ==> r[i] == UserCells(users[i], f)
  {
    seq(|users|, i requires 0 <= i < |users| => UserCells(users[i], f))
  }

  function ContextRows(contexts: seq<FlowContext>, f: Formats): (r: seq<seq<Cell>>)
    ensures |r| == |contexts| && forall i :: 0 <= i < |contexts| ==> r[i] == ContextCells(contexts[i], f)
  {
    seq(|contexts|, i requires 0 <= i < |contexts| => ContextCells(contexts[i], f))
  }

  function TagRows(tags: seq<UserTag>, f: Formats): (r: seq<seq<Cell>>)
    ensures |r| == |tags| && forall i :: 0 <= i < |tags| ==> r[i] == TagCells(tags[i], f)
  {
    seq(|tags|, i requires 0 <= i < |tags| => TagCells(tags[i], f))
  }

  function UsageRows(usages: seq<ReferralLinkUsage>, f: Formats): (r: seq<seq<Cell>>)
    ensures |r| == |usages| && forall i :: 0 <= i < |usages| ==> r[i] == UsageCells(usages[i], f)
  {
    seq(|usages|, i requires 0 <= i < |usages| => UsageCells(usages[i], f))
  }

  /** buildCsv on rows as wide as the header, together with the read-back
      of what it writes. */
  method WriteCsv(header: seq<string>, rows: seq<seq<Cell>>) returns (csv: string)
    requires header != [] && forall i :: 0 <= i < |rows| ==> |rows[i]| == |header|
    ensures csv == CsvText(header, rows)
    ensures ReadsAs(csv, header, rows)
  {
    csv := BuildCsv(header, rows);
    ParseCsvText(header, rows);
  }

  /** The order of fetchUserTags: by user id, then by creation time. */
  function TagKey(t: UserTag): Persistence.SortKey {
    (t.userId, Some(t.createdAt))
  }

  /** The order of fetchReferralLinkUsages: by trigger time, then by
      creation time. */
  function UsageKey(u: ReferralLinkUsage): Persistence.SortKey {
    (u.triggeredAt, u.createdAt)
  }

  /** exportUsersCsv: the users header, then one 23-field record per user,
      in ascending user id. */
  method ExportUsersCsv(users: map<int, User>, f: Formats) returns (csv: string)
    ensures ReadsAs(csv, USERS_HEADER, UserRows(Persistence.ById(users), f))
  {
    csv := WriteCsv(USERS_HEADER, UserRows(Persistence.ById(users), f));
  }

  /** exportFlowContextsCsv: one 24-field record per context, in ascending
      user id. */
  method ExportFlowContextsCsv(contexts: map<int, FlowContext>, f: Formats) returns (csv: string)
    ensures ReadsAs(csv, FLOW_CONTEXTS_HEADER, ContextRows(Persistence.ById(contexts), f))
  {
    csv := WriteCsv(FLOW_CONTEXTS_HEADER, ContextRows(Persistence.ById(contexts), f));
  }

  /** exportUserTagsCsv: one 3-field record per tag row, the rows sorted by
      user id and then creation time. */
  method ExportUserTagsCsv(tags: seq<UserTag>, f: Formats) returns (csv: string)
    ensures ReadsAs(csv, USER_TAGS_HEADER, TagRows(Persistence.SortBy(tags, TagKey), f))
  {
    csv := WriteCsv(USER_TAGS_HEADER, TagRows(Persistence.SortBy(tags, TagKey), f));
  }

  /** exportReferralLinkUsagesCsv: one 10-field record per ledger row, the
      rows sorted by trigger time and then creation time. */
  method ExportReferralLinkUsagesCsv(usages: seq<ReferralLinkUsage>, f: Formats) returns (csv: string)
    ensures ReadsAs(csv, REFERRAL_LINK_USAGES_HEADER, UsageRows(Persistence.SortBy(usages, UsageKey), f))
  {
    csv := WriteCsv(REFERRAL_LINK_USAGES_HEADER, UsageRows(Persistence.SortBy(usages, UsageKey), f));
  }
}
