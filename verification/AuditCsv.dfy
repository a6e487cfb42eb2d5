/**
 * The election audit as CSV (generateAuditCsv in src/elections/elections.service.ts), and a reader of such files after
 * section 2 of RFC 4180, with a line feed between records: fields are plain, or quoted with quotes doubled.
 */
module AuditCsv {
  import opened Common

  const QUOTE := '\"'
  const COMMA := ','
  const LF := '\n'

  // ---- Writing ---------------------------------------------------------------------------

  function Doubled(value: string): string {
    if value == "" then ""
    else (if value[0] == QUOTE then [QUOTE, QUOTE] else [value[0]]) + Doubled(value[1..])
  }

  function Escape(value: Option<string>): string {
    [QUOTE] + Doubled(if value.Some? then value.value else "") + [QUOTE]
  }

  function Join(parts: seq<string>, separator: char): string {
    if parts == [] then "" else if |parts| == 1 then parts[0] else parts[0] + [separator] + Join(parts[1..], separator)
  }

  datatype AuditVote = AuditVote(
    id: string, votedAt: string, email: string, memberName: Option<string>, attendeeName: Option<string>,
    position: string, candidate: string, ipAddress: Option<string>, userAgent: Option<string>)

  /** The name shown: the member's, or the attendee's, or the address. */
  function VoterName(v: AuditVote): string {
    if v.memberName.Some? then v.memberName.value else if v.attendeeName.Some? then v.attendeeName.value else v.email
  }

  function Fields(v: AuditVote): seq<Option<string>> {
    [Some(v.id), Some(v.votedAt), Some(v.email), Some(VoterName(v)), Some(v.position), Some(v.candidate), v.ipAddress,
     v.userAgent]
  }

  function EscapeAll(fields: seq<Option<string>>): seq<string> {
    seq(|fields|, i requires 0 <= i < |fields| => Escape(fields[i]))
  }

  function RowLines(votes: seq<AuditVote>): seq<string> {
    seq(|votes|, i requires 0 <= i < |votes| => Join(EscapeAll(Fields(votes[i])), COMMA))
  }

  const COLUMNS := ["id", "votedAt", "voterEmail", "voterName", "positionTitle", "candidateName", "ipAddress",
      "userAgent"]

  function AuditFile(votes: seq<AuditVote>): string {
    Join(COLUMNS, COMMA) + [LF] + Join(RowLines(votes), LF)
  }

  // ---- Reading ---------------------------------------------------------------------------

  /** A field and what follows it, or nothing when the text is malformed. */
  datatype Read<T> = Read(value: T, rest: string) | Malformed

  /** After an opening quote: up to the quote that is not doubled. */
  function ReadQuoted(s: string): (r: Read<string>)
    ensures r.Read? ==> |r.rest| < |s|
  {
    if s == "" then Malformed
    else if s[0] != QUOTE then
      var more := ReadQuoted(s[1..]);
      if more.Malformed? then Malformed else Read([s[0]] + more.value, more.rest)
    else if |s| > 1 && s[1] == QUOTE then
      var more := ReadQuoted(s[2..]);
      if more.Malformed? then Malformed else Read([QUOTE] + more.value, more.rest)
    else Read("", s[1..])
  }

  /** A plain field: up to a comma or a line feed; a quote inside is an error. */
  function ReadPlain(s: string): (r: Read<string>)
    ensures r.Read? ==> |r.rest| <= |s|
  {
    if s == "" || s[0] == COMMA || s[0] == LF then Read("", s)
    else if s[0] == QUOTE then Malformed
    else
      var more := ReadPlain(s[1..]);
      if more.Malformed? then Malformed else Read([s[0]] + more.value, more.rest)
  }

  function ReadField(s: string): (r: Read<string>)
    ensures r.Read? ==> |r.rest| <= |s|
  {
    if s != "" && s[0] == QUOTE then ReadQuoted(s[1..]) else ReadPlain(s)
  }

  /** One record: fields between commas, up to a line feed or the end. */
  function ReadRecord(s: string): (r: Read<seq<string>>)
    ensures r.Read? && s != "" ==> |r.rest| < |s|
    decreases |s|
  {
    var field := ReadField(s);
    if field.Malformed? then Malformed
    else if field.rest == "" then Read([field.value], "")
    else if field.rest[0] == LF then Read([field.value], field.rest[1..])
    else if field.rest[0] == COMMA then
      var more := ReadRecord(field.rest[1..]);
      if more.Malformed? then Malformed else Read([field.value] + more.value, more.rest)
    else Malformed
  }

  function ReadFile(s: string): Option<seq<seq<string>>>
    decreases |s|
  {
    if s == "" then Some([])
    else
      var first := ReadRecord(s);
      if first.Malformed? then None
      else
        var more := ReadFile(first.rest);
        if more.None? then None else Some([first.value] + more.value)
  }

  // ---- What is written reads back --------------------------------------------------------

  /** Nothing that would continue a quoted field. */
  predicate Closes(rest: string) {
    rest == "" || rest[0] != QUOTE
  }

  lemma ReadQuotedStep(c: char, tail: string)
    requires c != QUOTE
    ensures ReadQuoted([c] + tail) == var more := ReadQuoted(tail);
      if more.Malformed? then Malformed else Read([c] + more.value, more.rest)
  {
    assert ([c] + tail)[1..] == tail;
  }

  lemma ReadDoubledQuote(tail: string)
    ensures ReadQuoted([QUOTE, QUOTE] + tail) == var more := ReadQuoted(tail);
      if more.Malformed? then Malformed else Read([QUOTE] + more.value, more.rest)
  {
    assert ([QUOTE, QUOTE] + tail)[2..] == tail;
  }

  lemma Regroup(a: string, b: string, c: string)
    ensures a + b + c == a + (b + c)
  {
  }

  lemma {:induction false} QuotedReadsBack(value: string, rest: string)
    requires Closes(rest)
    ensures ReadQuoted(Doubled(value) + ([QUOTE] + rest)) == Read(value, rest)
    decreases value
  {
    var end := [QUOTE] + rest;
    if value == "" {
      assert Doubled(value) + end == end && end[1..] == rest;
    } else {
      hide ReadQuoted;
      var tail := Doubled(value[1..]);
      QuotedReadsBack(value[1..], rest);
      assert value == [value[0]] + value[1..];
      if value[0] == QUOTE {
        assert Doubled(value) == [QUOTE, QUOTE] + tail;
        Regroup([QUOTE, QUOTE], tail, end);
        ReadDoubledQuote(tail + end);
      } else {
        assert Doubled(value) == [value[0]] + tail;
        Regroup([value[0]], tail, end);
        ReadQuotedStep(value[0], tail + end);
      }
    }
  }

  function Text(field: Option<string>): string {
    if field.Some? then field.value else ""
  }

  lemma EscapedReadsBack(field: Option<string>, rest: string)
    requires Closes(rest)
    ensures ReadField(Escape(field) + rest) == Read(Text(field), rest)
  {
    var s := Escape(field) + rest;
    QuotedReadsBack(Text(field), rest);
    assert s[1..] == Doubled(Text(field)) + ([QUOTE] + rest);
  }

  predicate IsPlain(value: string) {
    QUOTE !in value && COMMA !in value && LF !in value
  }

  lemma {:induction false} PlainReadsBack(value: string, rest: string)
    requires IsPlain(value) && (rest == "" || rest[0] == COMMA || rest[0] == LF)
    ensures ReadPlain(value + rest) == Read(value, rest)
    decreases value
  {
    if value == "" {
      assert value + rest == rest;
    } else {
      assert (value + rest)[0] == value[0] && (value + rest)[1..] == value[1..] + rest;
      PlainReadsBack(value[1..], rest);
      assert value == [value[0]] + value[1..];
    }
  }

  /** A written part of a record: it reads back as its value when a separator follows. */
  ghost predicate ReadsAs(part: string, value: string) {
    forall rest: string :: rest == "" || rest[0] == COMMA || rest[0] == LF
        ==> ReadField(part + rest) == Read(value, rest)
  }

  lemma EscapedReadsAs(field: Option<string>)
    ensures ReadsAs(Escape(field), Text(field))
  {
    forall rest: string | rest == "" || rest[0] == COMMA || rest[0] == LF
      ensures ReadField(Escape(field) + rest) == Read(Text(field), rest)
    {
      EscapedReadsBack(field, rest);
    }
  }

  lemma PlainReadsAs(value: string)
    requires IsPlain(value)
    ensures ReadsAs(value, value)
  {
    forall rest: string | rest == "" || rest[0] == COMMA || rest[0] == LF
        ensures ReadField(value + rest) == Read(value, rest) {
      PlainReadsBack(value, rest);
    }
  }

  lemma ReadsAsBefore(part: string, value: string, rest: string)
    requires ReadsAs(part, value) && (rest == "" || rest[0] == COMMA || rest[0] == LF)
    ensures ReadField(part + rest) == Read(value, rest)
  {
    hide ReadField;
  }

  /** Joined with commas, the parts read back as one record, up to the end or a line feed. */
  lemma {:induction false} JoinedReadsBack(parts: seq<string>, values: seq<string>, rest: string)
    requires |parts| == |values| > 0 && forall i | 0 <= i < |parts| :: ReadsAs(parts[i], values[i])
    requires rest == "" || rest[0] == LF
    ensures ReadRecord(Join(parts, COMMA) + rest) == Read(values, if rest == "" then "" else rest[1..])
    decreases |parts|
  {
    hide ReadField, ReadsAs;
    if |parts| == 1 {
      ReadsAsBefore(parts[0], values[0], rest);
      assert values == [values[0]];
    } else {
      var more := Join(parts[1..], COMMA) + rest;
      var s := Join(parts, COMMA) + rest;
      assert s == parts[0] + ([COMMA] + more);
      ReadsAsBefore(parts[0], values[0], [COMMA] + more);
      assert ([COMMA] + more)[1..] == more;
      JoinedReadsBack(parts[1..], values[1..], rest);
      assert values == [values[0]] + values[1..];
    }
  }

  /** What a row stands for: the name is the member's or else the attendee's, and the address if there is neither. */
  function Texts(v: AuditVote): seq<string> {
    var name :=
      match (v.memberName, v.attendeeName)
      case (Some(name), _) => name
      case (None, Some(name)) => name
      case (None, None) => v.email;
    [v.id, v.votedAt, v.email, name, v.position, v.candidate, Text(v.ipAddress), Text(v.userAgent)]
  }

  lemma RowReadsBack(v: AuditVote, rest: string)
    requires rest == "" || rest[0] == LF
    ensures ReadRecord(Join(EscapeAll(Fields(v)), COMMA) + rest) == Read(Texts(v), if rest == "" then "" else rest[1..])
  {
    var parts := EscapeAll(Fields(v));
    assert |parts| == 8 == |Texts(v)|;
    forall i | 0 <= i < 8 ensures ReadsAs(parts[i], Texts(v)[i]) {
      EscapedReadsAs(Fields(v)[i]);
      assert Text(Fields(v)[i]) == Texts(v)[i];
    }
    JoinedReadsBack(parts, Texts(v), rest);
  }

  function AllTexts(votes: seq<AuditVote>): seq<seq<string>> {
    if votes == [] then [] else [Texts(votes[0])] + AllTexts(votes[1..])
  }

  lemma {:induction false} RowsReadBack(votes: seq<AuditVote>)
    ensures ReadFile(Join(RowLines(votes), LF)) == Some(AllTexts(votes))
    decreases |votes|
  {
    if votes != [] {
      var v := votes[0];
      var row := Join(EscapeAll(Fields(v)), COMMA);
      var lines := RowLines(votes);
      assert lines[0] == row && lines[1..] == RowLines(votes[1..]);
      assert row != "" by { RowIsNotEmpty(v); }
      RowsReadBack(votes[1..]);
      if |votes| == 1 {
        assert Join(lines, LF) == row == row + "";
        RowReadsBack(v, "");
        assert votes[1..] == [];
      } else {
        var rest := [LF] + Join(lines[1..], LF);
        assert Join(lines, LF) == row + rest;
        RowReadsBack(v, rest);
        assert rest[1..] == Join(lines[1..], LF);
      }
    }
  }

  lemma RowIsNotEmpty(v: AuditVote)
    ensures Join(EscapeAll(Fields(v)), COMMA) != ""
  {
    assert |EscapeAll(Fields(v))[0]| > 0;
  }

  lemma HeaderReadsBack(rest: string)
    ensures ReadRecord(Join(COLUMNS, COMMA) + ([LF] + rest)) == Read(COLUMNS, rest)
  {
    forall i | 0 <= i < |COLUMNS| ensures ReadsAs(COLUMNS[i], COLUMNS[i]) {
      assert IsPlain(COLUMNS[i]);
      PlainReadsAs(COLUMNS[i]);
    }
    assert ([LF] + rest)[1..] == rest;
    JoinedReadsBack(COLUMNS, COLUMNS, [LF] + rest);
  }

  /**
   * The whole file reads back: the column names, and then for every vote exactly its eight fields, whatever they
   * contain.
   */
  lemma AuditReadsBack(votes: seq<AuditVote>)
    ensures ReadFile(AuditFile(votes)) == Some(
      [["id", "votedAt", "voterEmail", "voterName", "positionTitle", "candidateName", "ipAddress", "userAgent"]]
      + AllTexts(votes))
  {
    assert COLUMNS == ["id", "votedAt", "voterEmail", "voterName", "positionTitle", "candidateName", "ipAddress",
                       "userAgent"];
    var body := Join(RowLines(votes), LF);
    assert AuditFile(votes) == Join(COLUMNS, COMMA) + ([LF] + body);
    HeaderReadsBack(body);
    RowsReadBack(votes);
    hide ReadRecord, Join, RowLines, AuditFile, AllTexts, COLUMNS;
  }
}
