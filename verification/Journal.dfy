/** The benchmark runner's progress journal: one line of text per finished (task, seed)
    slot, and the three operations on it (load, append, truncate). */
module Journal {
  import opened Sequences
  import opened TaskResults
  import opened Text

  type Row = TaskResult

  /** The row printer and parser. `Lawful` is what the journal needs of a JSON codec: a
      printed row parses back, is one line, and has nothing to trim at its ends. */
  datatype Codec = Codec(encode: Row -> string, decode: string -> Option<Row>) {
    ghost predicate Lawful() {
      forall r: Row ::
        decode(encode(r)) == Some(r) && '\n' !in encode(r) && Snug(encode(r))
    }
  }

  // ---------------------------------------------------------------- slot keys

  function Digit(n: nat): char
    requires n < 10
  {
    ('0' as int + n) as char
  }

  function Decimal(n: nat): (s: string)
    ensures s != ""
    ensures forall i :: 0 <= i < |s| ==> '0' <= s[i] <= '9'
  {
    if n < 10 then [Digit(n)] else Decimal(n / 10) + [Digit(n % 10)]
  }

  function SignedDecimal(n: int): string {
    if n < 0 then "-" + Decimal(-n) else Decimal(n)
  }

  /** The key of one (task, seed) slot, as the journal's done-set holds it. */
  function SlotKey(taskId: string, seed: int): string {
    taskId + "|" + SignedDecimal(seed)
  }

  function ResultKey(r: Row): string {
    SlotKey(r.taskId, r.seed)
  }

  lemma {:induction false} DecimalInjective(a: nat, b: nat)
    requires Decimal(a) == Decimal(b)
    ensures a == b
  {
    var s := Decimal(a);
    assert a % 10 == b % 10 by {
      assert s[|s| - 1] == Digit(a % 10) && s[|s| - 1] == Digit(b % 10);
    }
    if a >= 10 && b >= 10 {
      assert Decimal(a / 10) == s[..|s| - 1] == Decimal(b / 10);
      DecimalInjective(a / 10, b / 10);
    }
  }

  lemma SignedDecimalSign(n: int)
    ensures SignedDecimal(n) != "" && (SignedDecimal(n)[0] == '-' <==> n < 0)
  {
    if n >= 0 {
      assert '0' <= Decimal(n)[0];
    }
  }

  lemma SignedDecimalInjective(a: int, b: int)
    requires SignedDecimal(a) == SignedDecimal(b)
    ensures a == b
  {
    SignedDecimalSign(a);
    SignedDecimalSign(b);
    var s := SignedDecimal(a);
    if a < 0 {
      assert Decimal(-a) == s[1..] == Decimal(-b);
      DecimalInjective(-a, -b);
    } else {
      DecimalInjective(a, b);
    }
  }

  /** A key's last bar is the one after the task id. */
  lemma LastBar(t: string, n: int)
    ensures SlotKey(t, n)[|t|] == '|'
    ensures forall i :: |t| < i < |SlotKey(t, n)| ==> SlotKey(t, n)[i] != '|'
  {
    var d := SignedDecimal(n);
    assert forall j :: 0 <= j < |d| ==> '0' <= d[j] <= '9' || d[j] == '-';
    forall i | |t| < i < |SlotKey(t, n)| ensures SlotKey(t, n)[i] != '|' {
      assert SlotKey(t, n)[i] == d[i - |t| - 1];
    }
  }

  /** Two slots never share a key, whatever characters the task ids hold. */
  lemma SlotKeyInjective(t1: string, s1: int, t2: string, s2: int)
    requires SlotKey(t1, s1) == SlotKey(t2, s2)
    ensures t1 == t2 && s1 == s2
  {
    LastBar(t1, s1);
    LastBar(t2, s2);
    var k := SlotKey(t1, s1);
    assert |t1| == |t2|;
    assert t1 == k[..|t1|] == t2;
    assert SignedDecimal(s1) == k[|t1| + 1..] == SignedDecimal(s2);
    SignedDecimalInjective(s1, s2);
  }

  // ---------------------------------------------------------------- text form

  function NonBlank(lines: seq<string>): seq<string> {
    if lines == [] then []
    else if Blank(lines[0]) then NonBlank(lines[1..])
    else [lines[0]] + NonBlank(lines[1..])
  }

  lemma {:induction false} NonBlankAppend(a: seq<string>, b: seq<string>)
    ensures NonBlank(a + b) == NonBlank(a) + NonBlank(b)
  {
    if a == [] {
      assert a + b == b;
    } else {
      assert (a + b)[1..] == a[1..] + b;
      NonBlankAppend(a[1..], b);
    }
  }

  lemma {:induction false} NonBlankMember(lines: seq<string>, l: string)
    requires l in NonBlank(lines)
    ensures l in lines && !Blank(l)
  {
    if !(!Blank(lines[0]) && l == lines[0]) {
      NonBlankMember(lines[1..], l);
    }
  }

  /** The non-blank lines of the journal text, in order. */
  function Entries(text: string): seq<string> {
    NonBlank(Lines(text))
  }

  function DecodeAll(codec: Codec, lines: seq<string>): Result<seq<Row>, string> {
    if lines == [] then Ok([])
    else match codec.decode(TrimSpace(lines[0]))
      case None => Err(lines[0])
      case Some(r) =>
        match DecodeAll(codec, lines[1..])
        case Err(e) => Err(e)
        case Ok(rest) => Ok([r] + rest)
  }

  /** What loading the text yields: its rows, or the first line that does not parse. */
  function LoadText(codec: Codec, text: string): Result<seq<Row>, string> {
    DecodeAll(codec, Entries(text))
  }

  /** Every line of the text is ended: an append starts a line of its own. */
  predicate LineEnded(text: string) {
    text == "" || text[|text| - 1] == '\n'
  }

  function Unlines(lines: seq<string>): (t: string)
    ensures LineEnded(t)
  {
    if lines == [] then "" else lines[0] + "\n" + Unlines(lines[1..])
  }

  function TruncateText(text: string, n: nat): string {
    var lines := Entries(text);
    var kept := Join(lines[..|lines| - Min(n, |lines|)], "\n");
    if kept != "" then kept + "\n" else kept
  }

  /** `rows[..|rows| - n]`, saturating at the empty list. */
  function DropLast<T>(rows: seq<T>, n: nat): seq<T> {
    rows[..|rows| - Min(n, |rows|)]
  }

  lemma EntriesOfLine(line: string)
    requires OneLine(line)
    ensures Lines(line + "\n") == [line, ""] && Entries(line + "\n") == if Blank(line) then [] else [line]
  {
    LinesOfOne(line);
    LinesSplit(line, "");
    assert line + "\n" + "" == line + "\n" && [line] + [""] == [line, ""];
    NonBlankAppend([line], [""]);
    assert NonBlank([""]) == [] && NonBlank([line]) == if Blank(line) then [] else [line];
  }

  lemma EntriesSplit(a: string, b: string)
    ensures Entries(a + "\n" + b) == Entries(a) + Entries(b)
  {
    LinesSplit(a, b);
    NonBlankAppend(Lines(a), Lines(b));
  }

  lemma EntriesOfAppend(text: string, line: string)
    requires LineEnded(text) && OneLine(line)
    ensures Entries(text + line + "\n") == Entries(text) + (if Blank(line) then [] else [line])
  {
    EntriesOfLine(line);
    if text == "" {
      assert text + line + "\n" == line + "\n" && Entries("") == [];
    } else {
      var init := text[..|text| - 1];
      assert text == init + "\n" + "";
      assert text + line + "\n" == init + "\n" + (line + "\n");
      EntriesSplit(init, "");
      EntriesSplit(init, line + "\n");
      assert Entries("") == [] && Entries(init) + [] == Entries(init);
    }
  }

  lemma {:induction false} EntriesOfUnlines(lines: seq<string>)
    requires forall l :: l in lines ==> '\n' !in l && !Blank(l)
    ensures Entries(Unlines(lines)) == lines
  {
    if lines == [] {
      assert Lines("") == [""];
    } else {
      EntriesOfUnlines(lines[1..]);
      LinesOfOne(lines[0]);
      LinesSplit(lines[0], Unlines(lines[1..]));
      NonBlankAppend([lines[0]], Lines(Unlines(lines[1..])));
    }
  }

  lemma {:induction false} JoinIsUnlines(lines: seq<string>)
    requires lines != []
    ensures Join(lines, "\n") + "\n" == Unlines(lines)
  {
    if |lines| == 1 {
      assert Unlines(lines[1..]) == "";
    } else {
      JoinIsUnlines(lines[1..]);
      assert Join(lines, "\n") + "\n" == lines[0] + "\n" + (Join(lines[1..], "\n") + "\n");
    }
  }

  lemma EntriesAreLines(text: string)
    ensures forall l :: l in Entries(text) ==> '\n' !in l && !Blank(l)
  {
    forall l | l in Entries(text) ensures '\n' !in l && !Blank(l) {
      NonBlankMember(Lines(text), l);
      LinesHaveNoNewline(text, l);
    }
  }

  lemma TruncateIsUnlines(text: string, n: nat)
    ensures TruncateText(text, n) == Unlines(DropLast(Entries(text), n))
  {
    var kept := DropLast(Entries(text), n);
    if kept != [] {
      assert kept[0] in Entries(text);
      EntriesAreLines(text);
      JoinNotEmpty(kept);
      JoinIsUnlines(kept);
    }
  }

  lemma JoinNotEmpty(lines: seq<string>)
    requires lines != [] && !Blank(lines[0])
    ensures Join(lines, "\n") != ""
  {
    assert Blank("");
  }

  /** Truncating by n keeps exactly the non-blank lines before the last n. */
  lemma EntriesOfTruncate(text: string, n: nat)
    ensures Entries(TruncateText(text, n)) == DropLast(Entries(text), n)
    ensures LineEnded(TruncateText(text, n))
  {
    TruncateIsUnlines(text, n);
    EntriesAreLines(text);
    EntriesOfUnlines(DropLast(Entries(text), n));
  }

  lemma {:induction false} DecodePrefix(codec: Codec, lines: seq<string>, n: nat)
    requires n <= |lines|
    requires DecodeAll(codec, lines).Ok?
    ensures |DecodeAll(codec, lines).value| == |lines|
    ensures DecodeAll(codec, lines[..n]) == Ok(DecodeAll(codec, lines).value[..n])
  {
    if lines != [] {
      var rest := DecodeAll(codec, lines[1..]).value;
      var r := codec.decode(TrimSpace(lines[0])).value;
      assert DecodeAll(codec, lines).value == [r] + rest;
      if n > 0 {
        DecodePrefix(codec, lines[1..], n - 1);
        assert lines[..n][1..] == lines[1..][..n - 1];
        assert ([r] + rest)[..n] == [r] + rest[..n - 1];
      } else {
        DecodePrefix(codec, lines[1..], 0);
      }
    }
  }

  lemma {:induction false} DecodeSnoc(codec: Codec, lines: seq<string>, line: string)
    requires DecodeAll(codec, lines).Ok?
    ensures DecodeAll(codec, lines + [line])
         == match codec.decode(TrimSpace(line))
            case None => Err(line)
            case Some(r) => Ok(DecodeAll(codec, lines).value + [r])
  {
    if lines == [] {
      assert lines + [line] == [line] && [line][1..] == [];
      if codec.decode(TrimSpace(line)).Some? {
        var r := codec.decode(TrimSpace(line)).value;
        assert [r] + [] == [] + [r];
      }
    } else {
      DecodeSnoc(codec, lines[1..], line);
      assert (lines + [line])[1..] == lines[1..] + [line] && (lines + [line])[0] == lines[0];
      var first, rest := codec.decode(TrimSpace(lines[0])).value, DecodeAll(codec, lines[1..]).value;
      if codec.decode(TrimSpace(line)).Some? {
        Regroup([first], rest, [codec.decode(TrimSpace(line)).value]);
      }
    }
  }

  // ---------------------------------------------------------------- round trips

  /** What the text holds behind its last newline. */
  function LastLine(text: string): (last: string)
    ensures OneLine(last) && |last| <= |text| && text[|text| - |last|..] == last
    ensures LineEnded(text[..|text| - |last|])
  {
    if LineEnded(text) then ""
    else
      var n := |text| - 1;
      var last := LastLine(text[..n]);
      assert text == text[..n] + [text[n]] && text[..n][..n - |last|] == text[..n - |last|];
      last + [text[n]]
  }

  /** The lines of the text that are ended. */
  function EndedLines(text: string): (t: string)
    ensures LineEnded(t) && text == t + LastLine(text)
  {
    assert text == text[..|text| - |LastLine(text)|] + text[|text| - |LastLine(text)|..];
    text[..|text| - |LastLine(text)|]
  }

  /** An append to the text makes a line of its own: what is not ended is blank. */
  predicate Appendable(text: string) {
    Blank(LastLine(text))
  }

  lemma LineEndedIsAppendable(text: string)
    requires LineEnded(text)
    ensures Appendable(text)
  {
  }

  lemma EntriesOfUnended(text: string, last: string)
    requires LineEnded(text) && OneLine(last)
    ensures Entries(text + last) == Entries(text) + (if Blank(last) then [] else [last])
  {
    EntriesOfAppend(text, last);
    EntriesSplit(text + last, "");
    assert text + last + "\n" + "" == text + last + "\n";
    assert Entries("") == [] && Entries(text + last) + [] == Entries(text + last);
  }

  lemma {:induction false} TrimLeftSpaces(a: string, b: string)
    requires forall c :: c in a ==> IsSpace(c)
    ensures TrimLeft(a + b) == TrimLeft(b)
  {
    if a == "" {
      assert a + b == b;
    } else {
      assert (a + b)[1..] == a[1..] + b && a[0] in a;
      TrimLeftSpaces(a[1..], b);
    }
  }

  lemma BlankBefore(last: string, line: string)
    requires Snug(line)
    ensures !Blank(last + line) && (Blank(last) ==> TrimSpace(last + line) == line)
  {
    BlankMeans(last);
    BlankMeans(last + line);
    assert line[0] in last + line;
    if Blank(last) { TrimLeftSpaces(last, line); }
  }

  /** An append puts the new row behind the entries of the ended lines, on one line with what
      is not ended. */
  lemma EntriesAfterAppend(codec: Codec, text: string, r: Row)
    requires codec.Lawful()
    ensures var last := LastLine(text);
      Entries(text) == Entries(EndedLines(text)) + (if Blank(last) then [] else [last])
      && Entries(text + codec.encode(r) + "\n") == Entries(EndedLines(text)) + [last + codec.encode(r)]
  {
    var ended, last, line := EndedLines(text), LastLine(text), codec.encode(r);
    EntriesOfUnended(ended, last);
    assert !Blank(last + line) by { BlankBefore(last, line); }
    assert text + line == ended + (last + line) by { Regroup(ended, last, line); }
    EntriesOfAppend(ended, last + line);
  }

  /** The entries before an append, the line that is not ended among them if it is one, and
      the entries after it. */
  lemma GluedLoad(codec: Codec, ended: seq<string>, last: string, r: Row)
    requires codec.Lawful() && DecodeAll(codec, ended + (if Blank(last) then [] else [last])).Ok?
    ensures DecodeAll(codec, ended).Ok?
    ensures var rows := DecodeAll(codec, ended + (if Blank(last) then [] else [last])).value;
      DecodeAll(codec, ended + [last + codec.encode(r)]) == Ok(rows + [r]) <==> Blank(last)
  {
    var line, before := codec.encode(r), ended + (if Blank(last) then [] else [last]);
    DecodePrefix(codec, before, |ended|);
    assert before[..|ended|] == ended;
    DecodePrefix(codec, ended, 0);
    DecodeSnoc(codec, ended, last + line);
    BlankBefore(last, line);
    if Blank(last) { assert before == ended; }
  }

  /** Loading after one append yields the rows loaded before and then the new row, exactly when
      nothing but white space stood behind the last newline. */
  lemma LoadAfterAppendIff(codec: Codec, text: string, r: Row)
    requires codec.Lawful() && LoadText(codec, text).Ok?
    ensures LoadText(codec, text + codec.encode(r) + "\n") == Ok(LoadText(codec, text).value + [r])
       <==> Appendable(text)
  {
    EntriesAfterAppend(codec, text, r);
    GluedLoad(codec, Entries(EndedLines(text)), LastLine(text), r);
  }

  /** What the next load makes of an append behind a line that is not ended: the rows of the
      ended lines, and the two rows on one line as one row if that parses; if it does not, as
      with rows in JSON, the journal is unreadable. */
  lemma LoadAfterGluedAppend(codec: Codec, text: string, r: Row)
    requires codec.Lawful() && LoadText(codec, text).Ok? && !Appendable(text)
    ensures var rows, glued := LoadText(codec, text).value, LastLine(text) + codec.encode(r);
      rows != []
      && LoadText(codec, text + codec.encode(r) + "\n")
         == match codec.decode(TrimSpace(glued))
            case None => Err(glued)
            case Some(one) => Ok(rows[..|rows| - 1] + [one])
  {
    var ended := EndedLines(text);
    EntriesAfterAppend(codec, text, r);
    DecodePrefix(codec, Entries(text), |Entries(ended)|);
    assert Entries(text)[..|Entries(ended)|] == Entries(ended);
    DecodeSnoc(codec, Entries(ended), LastLine(text) + codec.encode(r));
  }

  /** The text with rows appended one after the other. */
  function Appended(codec: Codec, text: string, rows: seq<Row>): string {
    if rows == [] then text
    else Appended(codec, text, rows[..|rows| - 1]) + codec.encode(rows[|rows| - 1]) + "\n"
  }

  lemma AppendedOneMore(codec: Codec, text: string, rows: seq<Row>, r: Row)
    ensures Appended(codec, text, rows + [r]) == Appended(codec, text, rows) + codec.encode(r) + "\n"
  {
    assert (rows + [r])[..|rows|] == rows;
  }

  /** Appending to a text that has only white space unended adds the rows to those it loads. */
  lemma {:induction false} LoadAfterAppends(codec: Codec, text: string, rows: seq<Row>)
    requires codec.Lawful() && LoadText(codec, text).Ok? && Appendable(text)
    ensures LoadText(codec, Appended(codec, text, rows)) == Ok(LoadText(codec, text).value + rows)
    ensures Appendable(Appended(codec, text, rows))
    decreases |rows|
  {
    if rows == [] {
      assert LoadText(codec, text).value + rows == LoadText(codec, text).value;
    } else {
      var before, r := rows[..|rows| - 1], rows[|rows| - 1];
      assert before + [r] == rows;
      LoadAfterAppends(codec, text, before);
      LoadAfterAppendIff(codec, Appended(codec, text, before), r);
      Regroup(LoadText(codec, text).value, before, [r]);
      LineEndedIsAppendable(Appended(codec, text, rows));
    }
  }

  /** Printing then loading is the identity on every list of rows. */
  lemma LoadInvertsPrint(codec: Codec, rows: seq<Row>)
    requires codec.Lawful()
    ensures LoadText(codec, Appended(codec, "", rows)) == Ok(rows)
  {
    assert Entries("") == [];
    LoadAfterAppends(codec, "", rows);
    assert [] + rows == rows;
  }

  lemma EntriesOneMore(codec: Codec, text: string, head: seq<string>, rows: seq<Row>, r: Row)
    requires codec.Lawful() && LineEnded(text) && Entries(text) == head + Map(codec.encode, rows)
    ensures Entries(text + codec.encode(r) + "\n") == head + Map(codec.encode, rows + [r])
  {
    assert OneLine(codec.encode(r)) && !Blank(codec.encode(r)) by { EncodedIsNoBlank(codec, r); }
    EntriesOfAppend(text, codec.encode(r));
    MapAppend(codec.encode, rows, [r]);
    assert Map(codec.encode, [r]) == [codec.encode(r)];
    Regroup(head, Map(codec.encode, rows), [codec.encode(r)]);
  }

  /** Appends to any text: the first row shares a line with what was not ended, the others have
      lines of their own. */
  lemma {:induction false} EntriesOfAppends(codec: Codec, text: string, first: Row, rows: seq<Row>)
    requires codec.Lawful()
    ensures var appended := Appended(codec, text, [first] + rows);
      LineEnded(appended)
      && Entries(appended)
         == Entries(EndedLines(text)) + [LastLine(text) + codec.encode(first)] + Map(codec.encode, rows)
    decreases |rows|
  {
    if rows == [] {
      AppendedOneMore(codec, text, [], first);
      EntriesAfterAppend(codec, text, first);
      assert [] + [first] == [first] + rows;
    } else {
      var more, r := rows[..|rows| - 1], rows[|rows| - 1];
      assert more + [r] == rows && [first] + rows == ([first] + more) + [r];
      EntriesOfAppends(codec, text, first, more);
      AppendedOneMore(codec, text, [first] + more, r);
      EntriesOneMore(codec, Appended(codec, text, [first] + more),
                     Entries(EndedLines(text)) + [LastLine(text) + codec.encode(first)], more, r);
    }
  }

  lemma EncodedIsNoBlank(codec: Codec, r: Row)
    requires codec.Lawful()
    ensures OneLine(codec.encode(r)) && !Blank(codec.encode(r))
  {
    BlankBefore("", codec.encode(r));
    assert "" + codec.encode(r) == codec.encode(r);
  }

  lemma {:induction false} DecodeEncoded(codec: Codec, lines: seq<string>, rows: seq<Row>)
    requires codec.Lawful()
    ensures var all := DecodeAll(codec, lines + Map(codec.encode, rows));
      all == match DecodeAll(codec, lines)
             case Err(e) => Err(e)
             case Ok(before) => Ok(before + rows)
  {
    if lines == [] {
      DecodeOwn(codec, rows);
      assert lines + Map(codec.encode, rows) == Map(codec.encode, rows) && [] + rows == rows;
    } else {
      var more := lines + Map(codec.encode, rows);
      assert more[1..] == lines[1..] + Map(codec.encode, rows) && more[0] == lines[0];
      DecodeEncoded(codec, lines[1..], rows);
      if codec.decode(TrimSpace(lines[0])).Some? && DecodeAll(codec, lines[1..]).Ok? {
        Regroup([codec.decode(TrimSpace(lines[0])).value], DecodeAll(codec, lines[1..]).value, rows);
      }
    }
  }

  lemma {:induction false} DecodeOwn(codec: Codec, rows: seq<Row>)
    requires codec.Lawful()
    ensures DecodeAll(codec, Map(codec.encode, rows)) == Ok(rows)
  {
    if rows != [] {
      var lines := Map(codec.encode, rows);
      assert lines[1..] == Map(codec.encode, rows[1..]) && lines[0] == codec.encode(rows[0]);
      DecodeOwn(codec, rows[1..]);
      SnugTrims(lines[0]);
      assert [rows[0]] + rows[1..] == rows;
    }
  }

  /** What loads when the rows have been appended behind a line that is not ended: the last row
      before them is lost, or is one with the first of them. */
  function TornLoad(codec: Codec, text: string, rows: seq<Row>): Result<seq<Row>, string>
    requires LoadText(codec, text).Ok?
  {
    var before := DropLast(LoadText(codec, text).value, 1);
    if rows == [] then Ok(before)
    else
      var glued := LastLine(text) + codec.encode(rows[0]);
      match codec.decode(TrimSpace(glued))
      case None => Err(glued)
      case Some(one) => Ok(before + [one] + rows[1..])
  }

  lemma TornPrefix(codec: Codec, text: string)
    requires LoadText(codec, text).Ok? && !Appendable(text)
    ensures DecodeAll(codec, Entries(EndedLines(text))) == Ok(DropLast(LoadText(codec, text).value, 1))
  {
    var ended, last := EndedLines(text), LastLine(text);
    EntriesOfUnended(ended, last);
    DecodePrefix(codec, Entries(text), |Entries(ended)|);
    assert Entries(text)[..|Entries(ended)|] == Entries(ended);
  }

  /** Lines of which the first shares its own with what was not ended. */
  function TornLines(codec: Codec, text: string, rows: seq<Row>): seq<string> {
    if rows == [] then [] else [LastLine(text) + codec.encode(rows[0])] + Map(codec.encode, rows[1..])
  }

  lemma TornLinesLoad(codec: Codec, text: string, rows: seq<Row>)
    requires codec.Lawful() && LoadText(codec, text).Ok? && !Appendable(text)
    ensures DecodeAll(codec, Entries(EndedLines(text)) + TornLines(codec, text, rows)) == TornLoad(codec, text, rows)
  {
    var ended := Entries(EndedLines(text));
    TornPrefix(codec, text);
    if rows == [] {
      assert ended + [] == ended;
    } else {
      var glued := LastLine(text) + codec.encode(rows[0]);
      DecodeSnoc(codec, ended, glued);
      DecodeEncoded(codec, ended + [glued], rows[1..]);
      Regroup(ended, [glued], Map(codec.encode, rows[1..]));
    }
  }

  lemma TornLinesTaken(codec: Codec, text: string, rows: seq<Row>, n: nat)
    requires n <= |rows|
    ensures TornLines(codec, text, DropLast(rows, n)) == DropLast(TornLines(codec, text, rows), n)
  {
  }

  lemma DropBehind<T>(a: seq<T>, b: seq<T>, n: nat)
    requires n <= |b|
    ensures DropLast(a + b, n) == a + DropLast(b, n)
  {
  }

  /** Appends behind such a line, and what is left of them when the last n are taken back. */
  lemma TornLoads(codec: Codec, text: string, rows: seq<Row>, n: nat, left: string)
    requires codec.Lawful() && LoadText(codec, text).Ok? && !Appendable(text) && rows != [] && n <= |rows|
    requires Entries(left) == DropLast(Entries(Appended(codec, text, rows)), n)
    ensures LoadText(codec, left) == TornLoad(codec, text, DropLast(rows, n))
  {
    var ended := Entries(EndedLines(text));
    assert Entries(Appended(codec, text, rows)) == ended + TornLines(codec, text, rows) by {
      assert rows == [rows[0]] + rows[1..];
      EntriesOfAppends(codec, text, rows[0], rows[1..]);
      Regroup(ended, [LastLine(text) + codec.encode(rows[0])], Map(codec.encode, rows[1..]));
    }
    DropBehind(ended, TornLines(codec, text, rows), n);
    TornLinesTaken(codec, text, rows, n);
    TornLinesLoad(codec, text, DropLast(rows, n));
  }

  lemma LoadOfFewerEntries(codec: Codec, text: string, shorter: string, n: nat)
    requires LoadText(codec, text).Ok?
    requires Entries(shorter) == DropLast(Entries(text), n)
    ensures LoadText(codec, shorter) == Ok(DropLast(LoadText(codec, text).value, n))
  {
    DecodePrefix(codec, Entries(text), |Entries(text)| - Min(n, |Entries(text)|));
  }

  /** On any text that loads, truncating by n then loading drops the last n rows. */
  lemma LoadAfterTruncate(codec: Codec, text: string, n: nat)
    requires LoadText(codec, text).Ok?
    ensures LoadText(codec, TruncateText(text, n)) == Ok(DropLast(LoadText(codec, text).value, n))
  {
    EntriesOfTruncate(text, n);
    LoadOfFewerEntries(codec, text, TruncateText(text, n), n);
  }

  /** Truncations add up, as text, on every text; past the end they saturate. */
  lemma TruncateComposes(text: string, a: nat, b: nat)
    ensures TruncateText(TruncateText(text, a), b) == TruncateText(text, a + b)
    ensures a >= |Entries(text)| ==> TruncateText(text, a) == ""
  {
    EntriesOfTruncate(text, a);
    TruncateIsUnlines(TruncateText(text, a), b);
    TruncateIsUnlines(text, a);
    TruncateIsUnlines(text, a + b);
    assert DropLast(DropLast(Entries(text), a), b) == DropLast(Entries(text), a + b);
  }

  // ---------------------------------------------------------------- the file

  function Keys(rows: seq<Row>): set<string> {
    set r | r in rows :: ResultKey(r)
  }

  /** The read loop loading and truncating share. */
  method NonBlankLines(text: string) returns (lines: seq<string>)
    ensures lines == Entries(text)
  {
    var all := Lines(text);
    lines := [];
    assert all[0..] == all;
    for i := 0 to |all|
      invariant Entries(text) == lines + NonBlank(all[i..])
    {
      NonBlankStep(all, i);
      if TrimSpace(all[i]) != "" {
        lines := lines + [all[i]];
      }
    }
    assert all[|all|..] == [];
  }

  method TruncatedText(text: string, n: nat) returns (r: string)
    ensures r == TruncateText(text, n)
  {
    var lines := NonBlankLines(text);
    var m := if n > |lines| then |lines| else n;
    var kept := Join(lines[..|lines| - m], "\n");
    r := if kept != "" then kept + "\n" else kept;
  }

  function Prepend(rows: seq<Row>, res: Result<seq<Row>, string>): Result<seq<Row>, string> {
    match res
    case Err(e) => Err(e)
    case Ok(rest) => Ok(rows + rest)
  }

  lemma PrependNothing(res: Result<seq<Row>, string>)
    ensures Prepend([], res) == res
  {
    if res.Ok? {
      assert [] + res.value == res.value;
    }
  }

  lemma PrependPrepend(a: seq<Row>, b: seq<Row>, res: Result<seq<Row>, string>)
    ensures Prepend(a, Prepend(b, res)) == Prepend(a + b, res)
  {
    if res.Ok? {
      assert a + (b + res.value) == (a + b) + res.value;
    }
  }

  lemma NonBlankStep(lines: seq<string>, i: nat)
    requires i < |lines|
    ensures NonBlank(lines[i..]) ==
            (if TrimSpace(lines[i]) == "" then [] else [lines[i]]) + NonBlank(lines[i + 1..])
  {
    assert lines[i..][1..] == lines[i + 1..];
  }

  lemma DecodeStep(codec: Codec, lines: seq<string>, i: nat)
    requires i < |lines|
    ensures var rest := DecodeAll(codec, NonBlank(lines[i + 1..]));
            var line := TrimSpace(lines[i]);
            DecodeAll(codec, NonBlank(lines[i..])) ==
              if line == "" then rest
              else match codec.decode(line)
                   case None => Err(lines[i])
                   case Some(r) => Prepend([r], rest)
  {
    NonBlankStep(lines, i);
    if TrimSpace(lines[i]) != "" {
      var tail := NonBlank(lines[i + 1..]);
      assert ([lines[i]] + tail)[1..] == tail;
    }
  }

  lemma TruncateKeeps(codec: Codec, text: string, n: nat)
    ensures LineEnded(TruncateText(text, n))
    ensures LoadText(codec, text).Ok? ==>
              LoadText(codec, TruncateText(text, n)) == Ok(DropLast(LoadText(codec, text).value, n))
  {
    EntriesOfTruncate(text, n);
    if LoadText(codec, text).Ok? {
      LoadAfterTruncate(codec, text, n);
    }
  }

  lemma EmptyTruncates(codec: Codec, n: nat)
    ensures LoadText(codec, "") == Ok([]) && DropLast<Row>([], n) == []
  {
    assert Entries("") == [];
  }

  /** The journal file. A missing file loads as an empty journal. */
  class ProgressFile {
    var present: bool
    var text: string

    ghost predicate Valid()
      reads this
    {
      !present ==> text == ""
    }

    /** The rows a load would return. */
    ghost function Rows(codec: Codec): Result<seq<Row>, string>
      reads this
    {
      LoadText(codec, text)
    }

    /** Loading gives these rows, and the next append goes on a line of its own. */
    ghost predicate Holds(codec: Codec, rows: seq<Row>)
      reads this
    {
      Appendable(text) && Rows(codec) == Ok(rows)
    }

    constructor ()
      ensures Valid() && !present && text == ""
    {
      present, text := false, "";
    }

    method Load(codec: Codec) returns (res: Result<seq<Row>, string>, done: set<string>)
      requires Valid()
      ensures res == Rows(codec)
      ensures res.Ok? ==> done == Keys(res.value)
    {
      done := {};
      if !present {
        assert Entries("") == [];
        return Ok([]), done;
      }
      var lines := Lines(text);
      var rows: seq<Row> := [];
      assert lines[0..] == lines;
      PrependNothing(Rows(codec));
      for i := 0 to |lines|
        invariant done == Keys(rows)
        invariant Rows(codec) == Prepend(rows, DecodeAll(codec, NonBlank(lines[i..])))
      {
        DecodeStep(codec, lines, i);
        var line := TrimSpace(lines[i]);
        if line == "" {
          continue;
        }
        match codec.decode(line) {
          case None =>
            return Err(lines[i]), {};
          case Some(r) =>
            done := done + {ResultKey(r)};
            PrependPrepend(rows, [r], DecodeAll(codec, NonBlank(lines[i + 1..])));
            rows := rows + [r];
        }
      }
      assert NonBlank(lines[|lines|..]) == [];
      assert rows + [] == rows;
      res := Ok(rows);
    }

    method Append(codec: Codec, r: Row)
      modifies this
      ensures Valid() && present && text == old(text) + codec.encode(r) + "\n" && LineEnded(text)
      ensures codec.Lawful() && old(Rows(codec)).Ok? ==>
                (Holds(codec, old(Rows(codec)).value + [r]) <==> Appendable(old(text)))
    {
      if codec.Lawful() && Rows(codec).Ok? {
        LoadAfterAppendIff(codec, text, r);
      }
      present, text := true, text + codec.encode(r) + "\n";
      LineEndedIsAppendable(text);
    }

    method Truncate(codec: Codec, n: nat)
      requires Valid()
      modifies this
      ensures Valid() && text == (if old(present) then TruncateText(old(text), n) else "")
      ensures LineEnded(text)
      ensures old(Rows(codec)).Ok? ==> Holds(codec, DropLast(old(Rows(codec)).value, n))
    {
      if present {
        TruncateKeeps(codec, text, n);
        text := TruncatedText(text, n);
      } else {
        EmptyTruncates(codec, n);
      }
      LineEndedIsAppendable(text);
    }

    method Remove()
      modifies this
      ensures Valid() && !present && text == ""
    {
      present, text := false, "";
    }
  }
}
