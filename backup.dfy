/**
 * The text handling of the backup script: reading `.env.local` into the environment
 * line by line, and writing the income table as comma-separated text.
 */
module Backup {
  import opened Wrappers
  import opened Seqs
  import opened Text
  import opened Dates

  /** The position of the first `c` in `s`, or `|s|` when there is none. */
  function FirstIndex(s: string, c: char): (n: nat)
    ensures n <= |s|
    ensures forall i :: 0 <= i < n ==> s[i] != c
    ensures n < |s| ==> s[n] == c
  {
    if s == [] then 0 else if s[0] == c then 0 else 1 + FirstIndex(s[1..], c)
  }

  /** The first `c` of `a + [c] + b` is the one after `a` when `a` has none. */
  lemma FirstIndexAfter(a: string, c: char, b: string)
    requires c !in a
    ensures FirstIndex(a + [c] + b, c) == |a|
  {
    var s := a + [c] + b;
    assert s[|a|] == c;
    assert forall i :: 0 <= i < |a| ==> s[i] == a[i];
  }

  // ---------------------------------------------------------------------------
  // .env lines
  // ---------------------------------------------------------------------------

  /** The characters a JavaScript `.` does not match. */
  predicate LineTerminator(c: char) {
    c == '\n' || c == '\r' || c == '\U{2028}' || c == '\U{2029}'
  }

  predicate NoTerminator(s: string) {
    forall i :: 0 <= i < |s| ==> !LineTerminator(s[i])
  }

  /**
   * `/^([^=]+)=(.*)$/` matches `line` with the first group ending at `k`: a non-empty
   * run of non-`=` characters, the `=`, and a rest with no line terminator.
   */
  predicate SplitsAt(line: string, k: int) {
    0 < k < |line| && line[k] == '=' && (forall i :: 0 <= i < k ==> line[i] != '=') && NoTerminator(line[k + 1..])
  }

  /** One pair of matching surrounding double or single quotes removed; `slice(1, -1)` of a lone quote is empty. */
  function StripQuotes(v: string): (r: string)
    ensures |r| <= |v|
  {
    if |v| >= 1 && ((v[0] == '"' && v[|v| - 1] == '"') || (v[0] == '\'' && v[|v| - 1] == '\'')) then
      if |v| >= 2 then v[1..|v| - 1] else ""
    else v
  }

  /** Quoting a value and stripping it gives the value back, inner quotes included. */
  lemma StripQuotesOfQuoted(x: string, q: char)
    requires q == '"' || q == '\''
    ensures StripQuotes([q] + x + [q]) == x
  {
    var v := [q] + x + [q];
    assert v[1..|v| - 1] == x;
  }

  /** A value with no surrounding quote pair is kept as it is. */
  lemma StripQuotesUnquoted(v: string)
    requires v == [] || (v[0] != '"' && v[0] != '\'')
    ensures StripQuotes(v) == v
  {
  }

  /**
   * The key and value one `.env` line assigns: the text before the first `=` and the
   * text after it, both trimmed, the value's quote pair stripped; none when the
   * pattern does not match.
   */
  function ParseEnvLine(line: string): (r: Option<(string, string)>)
    ensures r.Some? <==> exists k :: SplitsAt(line, k)
    ensures forall k :: SplitsAt(line, k) ==> r == Some(Assignment(line, k))
  {
    SplitIsAtFirstEquals(line);
    var k := FirstIndex(line, '=');
    if 0 < k < |line| && NoTerminator(line[k + 1..]) then
      assert SplitsAt(line, k);
      Some(Assignment(line, k))
    else
      None
  }

  /** The key before position `k`, trimmed, and the value after it, trimmed and with its quote pair stripped. */
  function Assignment(line: string, k: nat): (string, string)
    requires k < |line|
  {
    (Trim(line[..k]), StripQuotes(Trim(line[k + 1..])))
  }

  /** The pattern can only split at the first `=`. */
  lemma SplitIsAtFirstEquals(line: string)
    ensures forall k :: SplitsAt(line, k) ==> k == FirstIndex(line, '=')
  {
  }

  /** A line of a CRLF file, which ends in a carriage return, never matches. */
  lemma CarriageReturnLineIgnored(line: string)
    ensures ParseEnvLine(line + "\r") == None
  {
    var s := line + "\r";
    assert s[|s| - 1] == '\r';
  }

  /** The environment after one line: its key set to its value when the line matches. */
  function ApplyLine(env: map<string, string>, line: string): map<string, string> {
    match ParseEnvLine(line)
    case Some(kv) => env[kv.0 := kv.1]
    case None => env
  }

  /** The environment after the lines in order. */
  function ApplyLines(env: map<string, string>, lines: seq<string>): map<string, string> {
    if lines == [] then env else ApplyLine(ApplyLines(env, lines[..|lines| - 1]), lines[|lines| - 1])
  }

  /** Some line assigns the key. */
  predicate Assigns(lines: seq<string>, k: string) {
    Some(k) in MapSeq(lines, KeyOf)
  }

  /** The key a line assigns, if any. */
  function KeyOf(line: string): Option<string> {
    match ParseEnvLine(line)
    case Some(kv) => Some(kv.0)
    case None => None
  }

  /** A line that does not assign the key leaves it as it was. */
  lemma OtherLineKeeps(env: map<string, string>, line: string, key: string)
    requires KeyOf(line) != Some(key)
    ensures key in ApplyLine(env, line) <==> key in env
    ensures key in env ==> ApplyLine(env, line)[key] == env[key]
  {
  }

  /** The last line that assigns a key decides its value. */
  lemma {:induction false} LastAssignmentWins(env: map<string, string>, lines: seq<string>, i: nat, key: string, value: string)
    requires i < |lines| && ParseEnvLine(lines[i]) == Some((key, value))
    requires forall j :: i < j < |lines| ==> KeyOf(lines[j]) != Some(key)
    ensures key in ApplyLines(env, lines) && ApplyLines(env, lines)[key] == value
  {
    var init := lines[..|lines| - 1];
    if i < |lines| - 1 {
      LastAssignmentWins(env, init, i, key, value);
      OtherLineKeeps(ApplyLines(env, init), lines[|lines| - 1], key);
    }
  }

  lemma ApplyLinesStep(env: map<string, string>, lines: seq<string>)
    requires lines != []
    ensures ApplyLines(env, lines) == ApplyLine(ApplyLines(env, lines[..|lines| - 1]), lines[|lines| - 1])
  {
  }

  /** A key no line assigns keeps its earlier value, or stays unset. */
  lemma {:induction false} UnassignedKeyKept(env: map<string, string>, lines: seq<string>, key: string)
    requires forall j :: 0 <= j < |lines| ==> KeyOf(lines[j]) != Some(key)
    ensures key in ApplyLines(env, lines) <==> key in env
    ensures key in env ==> ApplyLines(env, lines)[key] == env[key]
  {
    if lines != [] {
      var init := lines[..|lines| - 1];
      UnassignedKeyKept(env, init, key);
      ApplyLinesStep(env, lines);
      OtherLineKeeps(ApplyLines(env, init), lines[|lines| - 1], key);
    }
  }

  /** Loading never unsets a variable, and the only variables it adds are keys some line assigns. */
  lemma {:induction false} LoadedKeys(env: map<string, string>, lines: seq<string>)
    ensures forall k :: k in ApplyLines(env, lines) <==> k in env || Assigns(lines, k)
  {
    if lines != [] {
      var init, last := lines[..|lines| - 1], lines[|lines| - 1];
      LoadedKeys(env, init);
      ApplyLinesStep(env, lines);
      MapInit(lines, KeyOf);
      assert MapSeq(lines, KeyOf) == MapSeq(init, KeyOf) + [KeyOf(last)];
      forall k ensures k in ApplyLine(ApplyLines(env, init), last) <==> k in ApplyLines(env, init) || KeyOf(last) == Some(k) {
        LineKeys(ApplyLines(env, init), last, k);
      }
    }
  }

  /** One line adds at most the key it assigns. */
  lemma LineKeys(env: map<string, string>, line: string, k: string)
    ensures k in ApplyLine(env, line) <==> k in env || KeyOf(line) == Some(k)
  {
  }

  /** `process.env`, as far as the script writes it. */
  class Environment {
    var vars: map<string, string>

    constructor(initial: map<string, string>)
      ensures vars == initial
    {
      vars := initial;
    }

    /** The `forEach` over the file's lines: each matching line writes its key. */
    method Load(text: string)
      modifies this
      ensures vars == ApplyLines(old(vars), Split(text, '\n'))
    {
      var lines := Split(text, '\n');
      for i := 0 to |lines|
        invariant vars == ApplyLines(old(vars), lines[..i])
      {
        assert lines[..i + 1][..i] == lines[..i];
        vars := ApplyLine(vars, lines[i]);
      }
      assert lines[..|lines|] == lines;
    }
  }

  // ---------------------------------------------------------------------------
  // CSV
  // ---------------------------------------------------------------------------

  /** A column value as the database driver hands it over. */
  datatype Cell = Null | Str(s: string) | Flag(b: bool) | Timestamp(at: Now)

  /** A row: its columns in order, each with its name. */
  type Record = seq<(string, Cell)>

  function Padded(n: nat, width: nat): string {
    PadZeros(DigitString(n), width)
  }

  /** `Date.prototype.toISOString`: `YYYY-MM-DDTHH:MM:SS.mmmZ`. */
  function InstantIso(t: Now): string {
    var ms := t.msOfDay;
    IsoText(t.today) + "T" + Padded(ms / 3600000, 2) + ":" + Padded(ms / 60000 % 60, 2) + ":" +
    Padded(ms / 1000 % 60, 2) + "." + Padded(ms % 1000, 3) + "Z"
  }

  predicate IsoChar(c: char) {
    IsDigit(c) || c == '-' || c == 'T' || c == ':' || c == '.' || c == 'Z'
  }

  lemma {:induction false} PadAvoids(s: string, width: nat, c: char)
    requires c !in s && c != '0'
    ensures c !in PadZeros(s, width)
    decreases width - |s|
  {
    if |s| < width {
      PadAvoids("0" + s, width, c);
    }
  }

  lemma PaddedAvoids(n: nat, width: nat, c: char)
    requires !IsoChar(c)
    ensures c !in Padded(n, width)
  {
    PadAvoids(DigitString(n), width, c);
  }

  /** An ISO time stamp holds only digits and `-T:.Z`. */
  lemma IsoAvoids(t: Now, c: char)
    requires !IsoChar(c)
    ensures c !in InstantIso(t)
  {
    var ms := t.msOfDay;
    PaddedAvoids(t.today.year, 4, c);
    PaddedAvoids(t.today.month, 2, c);
    PaddedAvoids(t.today.day, 2, c);
    PaddedAvoids(ms / 3600000, 2, c);
    PaddedAvoids(ms / 60000 % 60, 2, c);
    PaddedAvoids(ms / 1000 % 60, 2, c);
    PaddedAvoids(ms % 1000, 3, c);
  }

  /** `String(value)`: the text a cell holds. */
  function CellText(c: Cell): string {
    match c
    case Null => ""
    case Str(s) => s
    case Flag(b) => if b then "true" else "false"
    case Timestamp(t) => InstantIso(t)
  }

  /** A field as written: wrapped in double quotes when it contains a comma, inner quotes left as they are. */
  function Field(t: string): string {
    if ',' in t then "\"" + t + "\"" else t
  }

  /** The text a cell is written as: its value's text, quoted when it contains a comma. */
  function FormatCell(c: Cell): (f: string)
    ensures f == Field(CellText(c))
  {
    match c
    case Null => ""
    case Timestamp(t) =>
      IsoAvoids(t, ',');
      InstantIso(t)
    case Str(s) => if ',' in s then "\"" + s + "\"" else s
    case Flag(b) => if b then "true" else "false"
  }

  function KeyOfColumn(p: (string, Cell)): string { p.0 }

  function TextOfColumn(p: (string, Cell)): string { CellText(p.1) }

  function FormatColumn(p: (string, Cell)): string { FormatCell(p.1) }

  function HeaderLine(r: Record): string {
    Join(MapSeq(r, KeyOfColumn), ',')
  }

  function FormatRow(r: Record): string {
    Join(MapSeq(r, FormatColumn), ',')
  }

  /** The backup file: a header of the first row's column names, then one line per row; nothing for no rows. */
  function BackupCsv(records: seq<Record>): (csv: Option<string>)
    ensures csv.None? <==> records == []
  {
    if records == [] then None
    else Some(Join([HeaderLine(records[0])] + MapSeq(records, FormatRow), '\n'))
  }

  // ---------------------------------------------------------------------------
  // Reading the file back
  // ---------------------------------------------------------------------------

  /**
   * A CSV reader that knows quoted fields but not doubled quotes: one field, and the
   * text after the comma that ends it when there is one.
   */
  function ReadField(s: string): (r: (string, Option<string>))
    ensures r.1.Some? ==> |r.1.value| < |s|
  {
    if s != [] && s[0] == '"' then
      var body := s[1..];
      var j := FirstIndex(body, '"');
      if j == |body| then (body, None)
      else
        var after := body[j + 1..];
        (body[..j], if after != [] && after[0] == ',' then Some(after[1..]) else None)
    else
      var k := FirstIndex(s, ',');
      (s[..k], if k < |s| then Some(s[k + 1..]) else None)
  }

  /** All fields of one line. */
  function ReadFields(s: string): (r: seq<string>)
    ensures |r| >= 1
    decreases |s|
  {
    var (f, rest) := ReadField(s);
    if rest.None? then [f] else [f] + ReadFields(rest.value)
  }

  function Tail(rest: Option<string>): string {
    if rest.Some? then "," + rest.value else ""
  }

  /** A quoted field ends at its closing quote; a comma right after it starts the rest. */
  lemma ReadQuoted(t: string, tail: string)
    requires '"' !in t
    ensures ReadField("\"" + t + "\"" + tail) == (t, if tail != [] && tail[0] == ',' then Some(tail[1..]) else None)
  {
    var s := "\"" + t + "\"" + tail;
    var body := s[1..];
    assert body == t + "\"" + tail;
    FirstIndexAfter(t, '"', tail);
    assert body[|t| + 1..] == tail;
    assert body[..|t|] == t;
  }

  /** A field with a comma is quoted and read back up to the closing quote. */
  lemma ReadQuotedField(t: string, rest: Option<string>)
    requires '"' !in t && ',' in t
    ensures ReadField(Field(t) + Tail(rest)) == (t, rest)
  {
    assert Field(t) == "\"" + t + "\"";
    ReadQuoted(t, Tail(rest));
    if rest.Some? {
      assert Tail(rest)[1..] == rest.value;
    }
  }

  /** A field without a comma is read back up to the comma that follows it. */
  lemma ReadBareField(t: string, rest: Option<string>)
    requires '"' !in t && ',' !in t
    ensures ReadField(Field(t) + Tail(rest)) == (t, rest)
  {
    var s := Field(t) + Tail(rest);
    assert t != [] ==> s[0] == t[0];
    if rest.Some? {
      assert s == t + "," + rest.value;
      FirstIndexAfter(t, ',', rest.value);
      assert s[..|t|] == t;
      assert s[|t| + 1..] == rest.value;
    } else {
      assert s == t;
      assert s[..|t|] == t;
    }
  }

  /** A field without double quotes reads back as itself, up to the comma that follows it. */
  lemma ReadFieldOfField(t: string, rest: Option<string>)
    requires '"' !in t
    ensures ReadField(Field(t) + Tail(rest)) == (t, rest)
  {
    if ',' in t {
      ReadQuotedField(t, rest);
    } else {
      ReadBareField(t, rest);
    }
  }

  /** Joined fields without double quotes read back as the texts they were made from. */
  lemma {:induction false} ReadFieldsOfJoin(ts: seq<string>)
    requires |ts| >= 1
    requires forall i :: 0 <= i < |ts| ==> '"' !in ts[i]
    ensures ReadFields(Join(MapSeq(ts, Field), ',')) == ts
  {
    var fs := MapSeq(ts, Field);
    if |ts| == 1 {
      ReadLastField(ts[0]);
      assert Join(fs, ',') == Field(ts[0]);
    } else {
      var rest := Join(fs[1..], ',');
      assert fs[1..] == MapSeq(ts[1..], Field);
      ReadFieldsOfJoin(ts[1..]);
      ReadFieldThenRest(ts[0], rest);
      assert Join(fs, ',') == Field(ts[0]) + "," + rest;
      assert ts == [ts[0]] + ts[1..];
    }
  }

  /** A last field without double quotes reads back as itself. */
  lemma ReadLastField(t: string)
    requires '"' !in t
    ensures ReadFields(Field(t)) == [t]
  {
    ReadFieldOfField(t, None);
    assert Field(t) + Tail(None) == Field(t);
  }

  /** A field without double quotes, a comma and the rest read back as that field, then the rest's fields. */
  lemma ReadFieldThenRest(t: string, rest: string)
    requires '"' !in t
    ensures ReadFields(Field(t) + "," + rest) == [t] + ReadFields(rest)
  {
    ReadFieldOfField(t, Some(rest));
    assert Field(t) + Tail(Some(rest)) == Field(t) + "," + rest;
  }

  /** Text the reader gives back unchanged: no double quote and no line break. */
  predicate Plain(t: string) { '"' !in t && '\n' !in t }

  predicate PlainCell(c: Cell) { c.Str? ==> Plain(c.s) }

  /** Every row has a column, the first row's names are plain and comma-free, every text value plain. */
  predicate Readable(records: seq<Record>) {
    && records != []
    && (forall i :: 0 <= i < |records| ==> |records[i]| >= 1)
    && (forall j :: 0 <= j < |records[0]| ==> Plain(records[0][j].0) && ',' !in records[0][j].0)
    && (forall i, j :: 0 <= i < |records| && 0 <= j < |records[i]| ==> PlainCell(records[i][j].1))
  }

  lemma CellTextPlain(c: Cell)
    requires PlainCell(c)
    ensures Plain(CellText(c))
  {
    if c.Timestamp? {
      IsoAvoids(c.at, '"');
      IsoAvoids(c.at, '\n');
    }
  }

  /** A row reads back as its values' texts, and has no line break. */
  lemma RowReadsBack(r: Record)
    requires |r| >= 1
    requires forall j :: 0 <= j < |r| ==> PlainCell(r[j].1)
    ensures ReadFields(FormatRow(r)) == MapSeq(r, TextOfColumn)
    ensures '\n' !in FormatRow(r)
  {
    var ts := MapSeq(r, TextOfColumn);
    TextsPlain(r);
    FormatIsField(r);
    ReadFieldsOfJoin(ts);
    FieldsAvoidLineBreak(ts);
    JoinAvoids(MapSeq(ts, Field), ',', '\n');
  }

  lemma TextsPlain(r: Record)
    requires forall j :: 0 <= j < |r| ==> PlainCell(r[j].1)
    ensures forall j :: 0 <= j < |r| ==> Plain(MapSeq(r, TextOfColumn)[j])
  {
    forall j | 0 <= j < |r| ensures Plain(MapSeq(r, TextOfColumn)[j]) {
      CellTextPlain(r[j].1);
    }
  }

  /** Each column is written as the field of its value's text. */
  lemma FormatIsField(r: Record)
    ensures MapSeq(r, FormatColumn) == MapSeq(MapSeq(r, TextOfColumn), Field)
  {
  }

  lemma FieldsAvoidLineBreak(ts: seq<string>)
    requires forall j :: 0 <= j < |ts| ==> Plain(ts[j])
    ensures forall j :: 0 <= j < |ts| ==> '\n' !in MapSeq(ts, Field)[j]
  {
  }

  /** The header reads back as the column names. */
  lemma HeaderReadsBack(r: Record)
    requires |r| >= 1
    requires forall j :: 0 <= j < |r| ==> Plain(r[j].0) && ',' !in r[j].0
    ensures ReadFields(HeaderLine(r)) == MapSeq(r, KeyOfColumn)
    ensures '\n' !in HeaderLine(r)
  {
    var ks := MapSeq(r, KeyOfColumn);
    assert MapSeq(ks, Field) == ks;
    ReadFieldsOfJoin(ks);
    JoinAvoids(ks, ',', '\n');
  }

  /**
   * The backup file has one header line and one line per row; the header reads back
   * as the first row's column names and each line as its row's values.
   */
  lemma BackupReadsBack(records: seq<Record>)
    requires Readable(records)
    ensures BackupCsv(records).Some?
    ensures var lines := Split(BackupCsv(records).value, '\n');
            && |lines| == |records| + 1
            && ReadFields(lines[0]) == MapSeq(records[0], KeyOfColumn)
            && forall i :: 0 <= i < |records| ==> ReadFields(lines[i + 1]) == MapSeq(records[i], TextOfColumn)
  {
    var rows := MapSeq(records, FormatRow);
    HeaderReadsBack(records[0]);
    RowsReadBack(records);
    SplitLines(HeaderLine(records[0]), rows);
    forall i | 0 <= i < |records| ensures ([HeaderLine(records[0])] + rows)[i + 1] == FormatRow(records[i]) {
    }
  }

  /** Every row of a readable backup reads back as its values' texts, and has no line break. */
  lemma RowsReadBack(records: seq<Record>)
    requires Readable(records)
    ensures forall i :: 0 <= i < |records| ==>
              ReadFields(MapSeq(records, FormatRow)[i]) == MapSeq(records[i], TextOfColumn)
              && '\n' !in MapSeq(records, FormatRow)[i]
  {
    forall i | 0 <= i < |records|
      ensures ReadFields(MapSeq(records, FormatRow)[i]) == MapSeq(records[i], TextOfColumn)
              && '\n' !in MapSeq(records, FormatRow)[i]
    {
      RowReadsBack(records[i]);
    }
  }

  /** The closing part of the quoted value, `b"`, reads as a single field. */
  lemma TrailingQuoteField()
    ensures ReadFields("b\"") == ["b\""]
  {
    var last := "b\"";
    assert last[0] != '"' && last[0] != ',' && last[1] != ',';
    assert FirstIndex(last, ',') == 2;
    assert last[..2] == last;
  }

  /** A text value holding a double quote and a comma is not escaped, and reads back as two fields. */
  lemma QuoteInValueSplitsRow()
    ensures ReadFields(FormatRow([("notes", Str("a\",b"))])) == ["a", "b\""]
  {
    var t := "a\",b";
    assert MapSeq([("notes", Str(t))], FormatColumn) == [Field(t)];
    assert ',' in t by { assert t[2] == ','; }
    assert Field(t) == "\"" + "a" + "\"" + ",b\"";
    ReadQuoted("a", ",b\"");
    assert ",b\""[1..] == "b\"";
    TrailingQuoteField();
  }
}
