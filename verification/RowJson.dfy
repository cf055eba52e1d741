/** A concrete codec for journal rows: a JSON object on one line, printed and parsed character
    by character. */
module RowJson {
  import opened Sequences
  import opened Text
  import opened Journal
  import opened TaskResults

  // ---------------------------------------------------------------- strings

  const BACKSPACE := '\U{0008}'

  const FORM_FEED := '\U{000C}'

  /** Control characters, and the characters a browser or a script parser could misread. */
  predicate NeedsHex(c: char) {
    c < ' ' || c == '<' || c == '>' || c == '&' || c == '\U{2028}' || c == '\U{2029}'
  }

  function Hex(n: nat): char
    requires n < 16
  {
    HexDigit(LOWER_HEX, n)
  }

  function HexEscape(n: nat): string
    requires n < 0x10000
  {
    HexParts(n);
    ['\\', 'u', Hex(n / 16 / 16 / 16), Hex(n / 16 / 16 % 16), Hex(n / 16 % 16), Hex(n % 16)]
  }

  /** The letter of a character's two-character escape. */
  function Letter(c: char): Option<char> {
    if c == '"' || c == '\\' then Some(c)
    else if c == '\n' then Some('n')
    else if c == '\r' then Some('r')
    else if c == '\t' then Some('t')
    else if c == BACKSPACE then Some('b')
    else if c == FORM_FEED then Some('f')
    else None
  }

  function EscapeChar(c: char): (s: string)
    ensures s != ""
  {
    if Letter(c).Some? then ['\\', Letter(c).value]
    else if NeedsHex(c) then HexEscape(c as int)
    else [c]
  }

  function Escape(s: string): string {
    if s == "" then "" else EscapeChar(s[0]) + Escape(s[1..])
  }

  function Scalar(n: nat): Option<char> {
    if n < 0xD800 || 0xE000 <= n < 0x10000 then Some(n as char) else None
  }

  function HexChar(a: char, b: char, c: char, d: char): Option<char> {
    if HexValue(a).None? || HexValue(b).None? || HexValue(c).None? || HexValue(d).None? then None
    else Scalar(4096 * HexValue(a).value + 256 * HexValue(b).value + 16 * HexValue(c).value + HexValue(d).value)
  }

  function FromLetter(c: char): Option<char> {
    if c == '"' || c == '\\' || c == '/' then Some(c)
    else if c == 'n' then Some('\n')
    else if c == 'r' then Some('\r')
    else if c == 't' then Some('\t')
    else if c == 'b' then Some(BACKSPACE)
    else if c == 'f' then Some(FORM_FEED)
    else None
  }

  /** One character of a string's inside, and what follows it. */
  function ReadChar(s: string): (r: Option<(char, string)>)
    ensures r.Some? ==> |r.value.1| < |s|
  {
    if s == "" || s[0] == '"' || s[0] < ' ' then None
    else if s[0] != '\\' then Some((s[0], s[1..]))
    else if |s| < 2 then None
    else if FromLetter(s[1]).Some? then Some((FromLetter(s[1]).value, s[2..]))
    else if s[1] == 'u' && |s| >= 6 && HexChar(s[2], s[3], s[4], s[5]).Some? then
      Some((HexChar(s[2], s[3], s[4], s[5]).value, s[6..]))
    else None
  }

  /** The inside of a string up to its closing quote, and what follows the quote. */
  function ReadInside(s: string): (r: Option<(string, string)>)
    ensures r.Some? ==> |r.value.1| < |s|
    decreases |s|
  {
    if s != "" && s[0] == '"' then Some(("", s[1..]))
    else
      match ReadChar(s)
      case None => None
      case Some((c, rest)) =>
        match ReadInside(rest)
        case None => None
        case Some((text, after)) => Some(([c] + text, after))
  }

  lemma HexParts(n: nat)
    requires n < 0x10000
    ensures n / 16 / 16 / 16 < 16
    ensures n == 4096 * (n / 16 / 16 / 16) + 256 * (n / 16 / 16 % 16) + 16 * (n / 16 % 16) + n % 16
  {
    var q := n / 16;
    var r := q / 16;
    assert n == 16 * q + n % 16 && q == 16 * r + q % 16 && r == 16 * (r / 16) + r % 16;
  }

  lemma HexCharReads(n: nat)
    requires n < 0xD800
    ensures n / 16 / 16 / 16 < 16
    ensures HexChar(Hex(n / 16 / 16 / 16), Hex(n / 16 / 16 % 16), Hex(n / 16 % 16), Hex(n % 16)) == Some(n as char)
  {
    HexParts(n);
    HexRoundTrip(LOWER_HEX, n / 16 / 16 / 16);
    HexRoundTrip(LOWER_HEX, n / 16 / 16 % 16);
    HexRoundTrip(LOWER_HEX, n / 16 % 16);
    HexRoundTrip(LOWER_HEX, n % 16);
  }

  lemma HexEscapeReads(c: char, rest: string)
    requires NeedsHex(c)
    ensures ReadChar(HexEscape(c as int) + rest) == Some((c, rest)) && '\n' !in HexEscape(c as int)
  {
    var e := HexEscape(c as int);
    assert OneLine(e) by { HexIsOneLine(c as int); }
    assert |e| == 6 && e[0] == '\\' && e[1] == 'u' && HexChar(e[2], e[3], e[4], e[5]) == Some(c) by {
      HexCharReads(c as int);
    }
    UnicodeReads(e, c, rest);
  }

  lemma UnicodeReads(e: string, c: char, rest: string)
    requires |e| == 6 && e[0] == '\\' && e[1] == 'u' && HexChar(e[2], e[3], e[4], e[5]) == Some(c)
    ensures ReadChar(e + rest) == Some((c, rest))
  {
    assert (e + rest)[6..] == rest;
  }

  lemma HexIsOneLine(n: nat)
    requires n < 0x10000
    ensures '\n' !in HexEscape(n)
  {
    HexParts(n);
    HexRoundTrip(LOWER_HEX, n / 16 / 16 / 16);
    HexRoundTrip(LOWER_HEX, n / 16 / 16 % 16);
    HexRoundTrip(LOWER_HEX, n / 16 % 16);
    HexRoundTrip(LOWER_HEX, n % 16);
  }

  lemma LetterReads(c: char, rest: string)
    requires Letter(c).Some?
    ensures ReadChar(['\\', Letter(c).value] + rest) == Some((c, rest)) && Letter(c).value != '\n'
  {
    assert (['\\', Letter(c).value] + rest)[2..] == rest;
  }

  lemma CharReads(c: char, rest: string)
    ensures ReadChar(EscapeChar(c) + rest) == Some((c, rest))
    ensures EscapeChar(c)[0] != '"' && '\n' !in EscapeChar(c)
  {
    if Letter(c).Some? {
      LetterReads(c, rest);
    } else if NeedsHex(c) {
      HexEscapeReads(c, rest);
    } else {
      assert ([c] + rest)[1..] == rest;
    }
  }

  /** Reading undoes escaping, and an escaped string is one line (section 7 of RFC 8259). */
  lemma {:induction false} EscapeRoundTrip(s: string, rest: string)
    ensures ReadInside(Escape(s) + ['"'] + rest) == Some((s, rest)) && OneLine(Escape(s))
    decreases |s|
  {
    var quoted := Escape(s) + ['"'] + rest;
    if s == "" {
      assert quoted[1..] == rest;
    } else {
      var tail := Escape(s[1..]) + ['"'] + rest;
      assert quoted == EscapeChar(s[0]) + tail;
      CharReads(s[0], tail);
      EscapeRoundTrip(s[1..], rest);
      assert [s[0]] + s[1..] == s;
    }
  }

  // ---------------------------------------------------------------- numbers

  predicate IsDigit(c: char) {
    '0' <= c <= '9'
  }

  function DigitsEnd(s: string): (n: nat)
    ensures n <= |s| && (forall i :: 0 <= i < n ==> IsDigit(s[i])) && (n < |s| ==> !IsDigit(s[n]))
  {
    if s == "" || !IsDigit(s[0]) then 0 else 1 + DigitsEnd(s[1..])
  }

  function DigitValue(c: char): nat
    requires IsDigit(c)
  {
    c as int - '0' as int
  }

  function NumberOf(s: string): nat
    requires forall i :: 0 <= i < |s| ==> IsDigit(s[i])
  {
    if s == "" then 0 else 10 * NumberOf(s[..|s| - 1]) + DigitValue(s[|s| - 1])
  }

  function ReadNat(s: string): Option<(nat, string)> {
    var n := DigitsEnd(s);
    if n == 0 then None else Some((NumberOf(s[..n]), s[n..]))
  }

  function ReadInt(s: string): Option<(int, string)> {
    if s != "" && s[0] == '-' then
      match ReadNat(s[1..])
      case None => None
      case Some((n, rest)) => Some((0 - n as int, rest))
    else
      match ReadNat(s)
      case None => None
      case Some((n, rest)) => Some((n as int, rest))
  }

  lemma {:induction false} DecimalReads(n: nat)
    ensures NumberOf(Decimal(n)) == n
  {
    var s := Decimal(n);
    if n < 10 {
      assert s[..|s| - 1] == "";
    } else {
      assert s[..|s| - 1] == Decimal(n / 10) && s[|s| - 1] == Digit(n % 10);
      DecimalReads(n / 10);
    }
  }

  lemma {:induction false} DigitsStop(s: string, rest: string)
    requires forall i :: 0 <= i < |s| ==> IsDigit(s[i])
    requires rest == "" || !IsDigit(rest[0])
    ensures DigitsEnd(s + rest) == |s|
  {
    if s == "" {
      assert s + rest == rest;
    } else {
      assert (s + rest)[1..] == s[1..] + rest;
      DigitsStop(s[1..], rest);
    }
  }

  lemma NumberRoundTrip(n: int, rest: string)
    requires rest == "" || !IsDigit(rest[0])
    ensures ReadInt(SignedDecimal(n) + rest) == Some((n, rest))
  {
    var digits := Decimal(if n < 0 then -n else n);
    DecimalReads(if n < 0 then -n else n);
    DigitsStop(digits, rest);
    assert (digits + rest)[..|digits|] == digits && (digits + rest)[|digits|..] == rest;
    if n < 0 {
      assert ("-" + digits + rest)[1..] == digits + rest;
    } else {
      assert IsDigit(digits[0]);
    }
  }

  // ---------------------------------------------------------------- fields

  lemma OneLineJoins(a: string, b: string)
    ensures OneLine(a + b) <==> OneLine(a) && OneLine(b)
  {
  }

  function Expect(s: string, field: string): (r: Option<string>)
    ensures r.Some? ==> |r.value| + |field| == |s|
  {
    if field <= s then Some(s[|field|..]) else None
  }

  lemma Expected(field: string, rest: string)
    ensures Expect(field + rest, field) == Some(rest)
  {
    assert (field + rest)[|field|..] == rest;
  }

  function PrintText(field: string, text: string): string {
    field + (Escape(text) + ['"'])
  }

  function ReadText(s: string, field: string): (r: Option<(string, string)>)
    ensures r.Some? ==> |r.value.1| < |s|
  {
    match Expect(s, field)
    case None => None
    case Some(rest) => ReadInside(rest)
  }

  lemma TextReads(field: string, text: string, rest: string)
    ensures ReadText(PrintText(field, text) + rest, field) == Some((text, rest))
    ensures OneLine(PrintText(field, text)) <==> OneLine(field)
  {
    var inside := Escape(text) + ['"'];
    Regroup(field, inside, rest);
    Expected(field, inside + rest);
    EscapeRoundTrip(text, rest);
    OneLineJoins(field, inside);
    OneLineJoins(Escape(text), ['"']);
  }

  /** A field that is left out when its text is empty. */
  function PrintOptional(field: string, text: string): string {
    if text == "" then "" else PrintText(field, text)
  }

  function ReadOptional(s: string, field: string): (r: Option<(string, string)>)
    ensures r.Some? ==> |r.value.1| <= |s|
  {
    if field <= s then ReadText(s, field) else Some(("", s))
  }

  lemma Differs(field: string, s: string, i: nat)
    requires i < |field| && i < |s| && field[i] != s[i]
    ensures !(field <= s)
  {
  }

  lemma BeginsWith(field: string, text: string, rest: string)
    ensures field <= PrintText(field, text) + rest
  {
    var inside := Escape(text) + ['"'];
    Regroup(field, inside, rest);
  }

  lemma OptionalReads(field: string, text: string, rest: string)
    requires !(field <= rest)
    ensures ReadOptional(PrintOptional(field, text) + rest, field) == Some((text, rest))
    ensures OneLine(field) ==> OneLine(PrintOptional(field, text))
  {
    if text == "" {
      assert "" + rest == rest;
    } else {
      TextReads(field, text, rest);
      BeginsWith(field, text, rest);
    }
  }

  function ReadNumber(s: string, field: string): Option<(int, string)> {
    match Expect(s, field)
    case None => None
    case Some(rest) => ReadInt(rest)
  }

  lemma NumberReads(field: string, n: int, rest: string)
    requires rest != "" && !IsDigit(rest[0])
    ensures ReadNumber(field + (SignedDecimal(n) + rest), field) == Some((n, rest))
    ensures OneLine(SignedDecimal(n))
  {
    Expected(field, SignedDecimal(n) + rest);
    NumberRoundTrip(n, rest);
    var digits := Decimal(if n < 0 then -n else n);
    assert forall i :: 0 <= i < |digits| ==> digits[i] != '\n';
  }

  // ---------------------------------------------------------------- checks

  const KIND := "{\"kind\":\""
  const PASSED := ",\"passed\":"
  const DETAIL := ",\"detail\":\""
  const TRUE := "true"
  const FALSE := "false"

  function PrintDetail(c: Check): string {
    PrintOptional(DETAIL, c.detail) + "}"
  }

  function PrintFlag(c: Check): string {
    PASSED + ((if c.passed then TRUE else FALSE) + PrintDetail(c))
  }

  function PrintCheck(c: Check): string {
    PrintText(KIND, c.kind) + PrintFlag(c)
  }

  function ReadFlag(s: string): (r: Option<(bool, string)>)
    ensures r.Some? ==> |r.value.1| <= |s|
  {
    if TRUE <= s then Some((true, s[4..])) else if FALSE <= s then Some((false, s[5..])) else None
  }

  function ReadDetail(kind: string, passed: bool, s: string): (r: Option<(Check, string)>)
    ensures r.Some? ==> |r.value.1| <= |s|
  {
    match ReadOptional(s, DETAIL)
    case None => None
    case Some((detail, rest)) =>
      match Expect(rest, "}")
      case None => None
      case Some(behind) => Some((Check(kind, passed, detail), behind))
  }

  function ReadRest(kind: string, s: string): (r: Option<(Check, string)>)
    ensures r.Some? ==> |r.value.1| <= |s|
  {
    match Expect(s, PASSED)
    case None => None
    case Some(flag) =>
      match ReadFlag(flag)
      case None => None
      case Some((passed, rest)) => ReadDetail(kind, passed, rest)
  }

  function ReadCheck(s: string): (r: Option<(Check, string)>)
    ensures r.Some? ==> |r.value.1| < |s|
  {
    match ReadText(s, KIND)
    case None => None
    case Some((kind, rest)) => ReadRest(kind, rest)
  }

  lemma DetailReads(c: Check, rest: string)
    ensures ReadDetail(c.kind, c.passed, PrintDetail(c) + rest) == Some((c, rest)) && OneLine(PrintDetail(c))
  {
    Regroup(PrintOptional(DETAIL, c.detail), "}", rest);
    Differs(DETAIL, "}" + rest, 0);
    OptionalReads(DETAIL, c.detail, "}" + rest);
    Expected("}", rest);
    OneLineJoins(PrintOptional(DETAIL, c.detail), "}");
  }

  lemma FlagReads(c: Check, rest: string)
    ensures ReadRest(c.kind, PrintFlag(c) + rest) == Some((c, rest)) && OneLine(PrintFlag(c))
  {
    var word, tail := if c.passed then TRUE else FALSE, PrintDetail(c) + rest;
    Regroup(PASSED, word + PrintDetail(c), rest);
    Regroup(word, PrintDetail(c), rest);
    Expected(PASSED, word + tail);
    WordReads(c.passed, tail);
    DetailReads(c, rest);
    OneLineJoins(word, PrintDetail(c));
    OneLineJoins(PASSED, word + PrintDetail(c));
  }

  lemma WordReads(passed: bool, rest: string)
    ensures ReadFlag((if passed then TRUE else FALSE) + rest) == Some((passed, rest))
  {
    assert (TRUE + rest)[4..] == rest && (FALSE + rest)[5..] == rest;
    assert (FALSE + rest)[0] == 'f' && TRUE[0] == 't';
  }

  lemma CheckReads(c: Check, rest: string)
    ensures ReadCheck(PrintCheck(c) + rest) == Some((c, rest)) && OneLine(PrintCheck(c))
  {
    Regroup(PrintText(KIND, c.kind), PrintFlag(c), rest);
    TextReads(KIND, c.kind, PrintFlag(c) + rest);
    FlagReads(c, rest);
    OneLineJoins(PrintText(KIND, c.kind), PrintFlag(c));
  }

  /** The checks of a list from one on, with the bracket that ends it. */
  function PrintMore(cs: seq<Check>): string
    requires cs != []
  {
    PrintCheck(cs[0]) + if |cs| == 1 then "]" else "," + PrintMore(cs[1..])
  }

  function PrintChecks(cs: Option<seq<Check>>): string {
    if cs.None? then "null" else if cs.value == [] then "[]" else "[" + PrintMore(cs.value)
  }

  function ReadMore(s: string): Option<(seq<Check>, string)>
    decreases |s|
  {
    match ReadCheck(s)
    case None => None
    case Some((c, rest)) =>
      if rest == "" then None
      else if rest[0] == ']' then Some(([c], rest[1..]))
      else if rest[0] != ',' then None
      else
        match ReadMore(rest[1..])
        case None => None
        case Some((cs, behind)) => Some(([c] + cs, behind))
  }

  function ReadChecks(s: string): Option<(Option<seq<Check>>, string)> {
    if "null" <= s then Some((None, s[4..]))
    else if "[]" <= s then Some((Some([]), s[2..]))
    else if "[" <= s then
      match ReadMore(s[1..])
      case None => None
      case Some((cs, rest)) => Some((Some(cs), rest))
    else None
  }

  lemma LastReads(c: Check, rest: string)
    ensures ReadMore(PrintCheck(c) + ("]" + rest)) == Some(([c], rest))
  {
    CheckReads(c, "]" + rest);
    assert ("]" + rest)[1..] == rest;
  }

  lemma AnotherReads(c: Check, more: string, cs: seq<Check>, rest: string)
    requires ReadMore(more) == Some((cs, rest))
    ensures ReadMore(PrintCheck(c) + ("," + more)) == Some(([c] + cs, rest))
  {
    CheckReads(c, "," + more);
    assert ("," + more)[1..] == more;
  }

  lemma {:induction false} MoreIsOneLine(cs: seq<Check>)
    requires cs != []
    ensures OneLine(PrintMore(cs))
  {
    CheckReads(cs[0], "");
    if |cs| > 1 {
      MoreIsOneLine(cs[1..]);
      OneLineJoins(",", PrintMore(cs[1..]));
    }
  }

  lemma MorePrints(cs: seq<Check>, rest: string)
    requires |cs| > 1
    ensures PrintMore(cs) + rest == PrintCheck(cs[0]) + ("," + (PrintMore(cs[1..]) + rest))
  {
    Regroup(PrintCheck(cs[0]), "," + PrintMore(cs[1..]), rest);
    Regroup(",", PrintMore(cs[1..]), rest);
  }

  lemma OneMoreReads(cs: seq<Check>, rest: string)
    requires |cs| > 1 && ReadMore(PrintMore(cs[1..]) + rest) == Some((cs[1..], rest))
    ensures ReadMore(PrintMore(cs) + rest) == Some((cs, rest))
  {
    MorePrints(cs, rest);
    AnotherReads(cs[0], PrintMore(cs[1..]) + rest, cs[1..], rest);
    assert cs == [cs[0]] + cs[1..];
  }

  lemma {:induction false} MoreReads(cs: seq<Check>, rest: string)
    requires cs != []
    ensures ReadMore(PrintMore(cs) + rest) == Some((cs, rest))
    decreases |cs|
  {
    if |cs| == 1 {
      LastReads(cs[0], rest);
      Regroup(PrintCheck(cs[0]), "]", rest);
      assert cs == [cs[0]];
    } else {
      MoreReads(cs[1..], rest);
      OneMoreReads(cs, rest);
    }
  }

  lemma MoreStarts(cs: seq<Check>)
    requires cs != []
    ensures PrintMore(cs) != "" && PrintMore(cs)[0] == '{'
  {
    assert PrintCheck(cs[0])[0] == PrintText(KIND, cs[0].kind)[0] == KIND[0];
  }

  lemma ListReads(cs: seq<Check>, rest: string)
    requires cs != []
    ensures ReadChecks("[" + PrintMore(cs) + rest) == Some((Some(cs), rest))
  {
    var more := PrintMore(cs) + rest;
    MoreReads(cs, rest);
    MoreStarts(cs);
    Regroup("[", PrintMore(cs), rest);
    var s := "[" + more;
    assert s[0] == '[' && s[1] == '{' && s[1..] == more;
    Differs("null", s, 0);
    Differs("[]", s, 1);
  }

  lemma ChecksRead(cs: Option<seq<Check>>, rest: string)
    ensures ReadChecks(PrintChecks(cs) + rest) == Some((cs, rest)) && OneLine(PrintChecks(cs))
  {
    if cs.None? {
      assert ("null" + rest)[4..] == rest;
    } else if cs.value == [] {
      Differs("null", "[]" + rest, 0);
      assert ("[]" + rest)[2..] == rest;
    } else {
      ListReads(cs.value, rest);
      MoreIsOneLine(cs.value);
      OneLineJoins("[", PrintMore(cs.value));
    }
  }

  // ---------------------------------------------------------------- rows

  const TASK_ID := "{\"task_id\":\""
  const LANE := ",\"lane\":\""
  const SEED := ",\"seed\":"
  const STATUS := ",\"status\":\""
  const CHECKS := ",\"checks\":"
  const ANSWER := ",\"answer\":\""
  const TOOL_CALLS := ",\"tool_calls\":"
  const DURATION := ",\"duration_ms\":"
  const ERROR := ",\"error\":\""

  function PrintEnd(r: Row): string {
    PrintOptional(ERROR, r.error) + "}"
  }

  function PrintDuration(r: Row): string {
    DURATION + (SignedDecimal(r.durationMs) + PrintEnd(r))
  }

  function PrintCosts(r: Row): string {
    TOOL_CALLS + (SignedDecimal(r.toolCalls) + PrintDuration(r))
  }

  function PrintFindings(r: Row): string {
    CHECKS + (PrintChecks(r.checks) + (PrintOptional(ANSWER, r.answer) + PrintCosts(r)))
  }

  function PrintOutcome(r: Row): string {
    SEED + (SignedDecimal(r.seed) + (PrintText(STATUS, StatusText(r.status)) + PrintFindings(r)))
  }

  /** A row on one line, in the order of its fields. */
  function Print(r: Row): string {
    PrintText(TASK_ID, r.taskId) + (PrintText(LANE, r.lane) + PrintOutcome(r))
  }

  function ReadEnd(r: Row, s: string): Option<(Row, string)> {
    match ReadOptional(s, ERROR)
    case None => None
    case Some((error, rest)) =>
      match Expect(rest, "}")
      case None => None
      case Some(behind) => Some((r.(error := error), behind))
  }

  function ReadCosts(r: Row, s: string): Option<(Row, string)> {
    match ReadNumber(s, TOOL_CALLS)
    case None => None
    case Some((calls, rest)) =>
      match ReadNumber(rest, DURATION)
      case None => None
      case Some((duration, behind)) => ReadEnd(r.(toolCalls := calls, durationMs := duration), behind)
  }

  function ReadFindings(r: Row, s: string): Option<(Row, string)> {
    match Expect(s, CHECKS)
    case None => None
    case Some(list) =>
      match ReadChecks(list)
      case None => None
      case Some((checks, rest)) =>
        match ReadOptional(rest, ANSWER)
        case None => None
        case Some((answer, behind)) => ReadCosts(r.(checks := checks, answer := answer), behind)
  }

  function ReadOutcome(r: Row, s: string): Option<(Row, string)> {
    match ReadNumber(s, SEED)
    case None => None
    case Some((seed, rest)) =>
      match ReadText(rest, STATUS)
      case None => None
      case Some((status, behind)) => ReadFindings(r.(seed := seed, status := StatusOf(status)), behind)
  }

  const BLANK := TaskResult("", "", 0, Pass, None, "", 0, 0, "")

  /** A row, and the text behind its closing brace. */
  function ReadRow(s: string): Option<(Row, string)> {
    match ReadText(s, TASK_ID)
    case None => None
    case Some((taskId, rest)) =>
      match ReadText(rest, LANE)
      case None => None
      case Some((lane, behind)) => ReadOutcome(BLANK.(taskId := taskId, lane := lane), behind)
  }

  function Parse(s: string): Option<Row> {
    match ReadRow(s)
    case None => None
    case Some((r, rest)) => if rest == "" then Some(r) else None
  }

  lemma EndReads(b: Row, r: Row, rest: string)
    requires b.(error := r.error) == r
    ensures ReadEnd(b, PrintEnd(r) + rest) == Some((r, rest)) && OneLine(PrintEnd(r))
    ensures PrintEnd(r) != "" && !IsDigit(PrintEnd(r)[0])
  {
    Regroup(PrintOptional(ERROR, r.error), "}", rest);
    Differs(ERROR, "}" + rest, 0);
    OptionalReads(ERROR, r.error, "}" + rest);
    Expected("}", rest);
    OneLineJoins(PrintOptional(ERROR, r.error), "}");
    assert r.error != "" ==> PrintEnd(r)[0] == ERROR[0];
  }

  lemma DurationReads(b: Row, r: Row, rest: string)
    requires b.(durationMs := r.durationMs, error := r.error) == r
    ensures ReadNumber(PrintDuration(r) + rest, DURATION) == Some((r.durationMs, PrintEnd(r) + rest))
    ensures OneLine(PrintDuration(r)) && PrintDuration(r)[0] == ','
  {
    var number, end := SignedDecimal(r.durationMs), PrintEnd(r);
    EndReads(b.(durationMs := r.durationMs), r, rest);
    assert PrintDuration(r) + rest == DURATION + (number + (end + rest)) by {
      Regroup(DURATION, number + end, rest);
      Regroup(number, end, rest);
    }
    NumberReads(DURATION, r.durationMs, end + rest);
    assert OneLine(DURATION + (number + end)) by {
      OneLineJoins(number, end);
      OneLineJoins(DURATION, number + end);
    }
    assert (DURATION + (number + end))[0] == DURATION[0];
  }

  lemma CostsRead(b: Row, r: Row, rest: string)
    requires b.(toolCalls := r.toolCalls, durationMs := r.durationMs, error := r.error) == r
    ensures ReadCosts(b, PrintCosts(r) + rest) == Some((r, rest)) && OneLine(PrintCosts(r))
  {
    var next := b.(toolCalls := r.toolCalls);
    DurationReads(next, r, rest);
    EndReads(next.(durationMs := r.durationMs), r, rest);
    Regroup(TOOL_CALLS, SignedDecimal(r.toolCalls) + PrintDuration(r), rest);
    Regroup(SignedDecimal(r.toolCalls), PrintDuration(r), rest);
    NumberReads(TOOL_CALLS, r.toolCalls, PrintDuration(r) + rest);
    OneLineJoins(SignedDecimal(r.toolCalls), PrintDuration(r));
    OneLineJoins(TOOL_CALLS, SignedDecimal(r.toolCalls) + PrintDuration(r));
  }

  lemma NoAnswerThere(r: Row, rest: string)
    ensures !(ANSWER <= PrintCosts(r) + rest)
  {
    assert (PrintCosts(r) + rest)[2] == TOOL_CALLS[2] == 't' && ANSWER[2] == 'a';
    Differs(ANSWER, PrintCosts(r) + rest, 2);
  }

  lemma FindingsRead(b: Row, r: Row, rest: string)
    requires b.(checks := r.checks, answer := r.answer, toolCalls := r.toolCalls, durationMs := r.durationMs,
                error := r.error) == r
    ensures ReadFindings(b, PrintFindings(r) + rest) == Some((r, rest)) && OneLine(PrintFindings(r))
    ensures PrintFindings(r)[0] == ','
  {
    var answer := PrintOptional(ANSWER, r.answer) + PrintCosts(r);
    CostsRead(b.(checks := r.checks, answer := r.answer), r, rest);
    Regroup(CHECKS, PrintChecks(r.checks) + answer, rest);
    Regroup(PrintChecks(r.checks), answer, rest);
    Regroup(PrintOptional(ANSWER, r.answer), PrintCosts(r), rest);
    Expected(CHECKS, PrintChecks(r.checks) + (answer + rest));
    ChecksRead(r.checks, answer + rest);
    NoAnswerThere(r, rest);
    OptionalReads(ANSWER, r.answer, PrintCosts(r) + rest);
    OneLineJoins(PrintOptional(ANSWER, r.answer), PrintCosts(r));
    OneLineJoins(PrintChecks(r.checks), answer);
    OneLineJoins(CHECKS, PrintChecks(r.checks) + answer);
  }

  lemma OutcomeReads(b: Row, r: Row, rest: string)
    requires b == BLANK.(taskId := r.taskId, lane := r.lane)
    ensures ReadOutcome(b, PrintOutcome(r) + rest) == Some((r, rest)) && OneLine(PrintOutcome(r))
  {
    var status := PrintText(STATUS, StatusText(r.status)) + PrintFindings(r);
    FindingsRead(b.(seed := r.seed, status := r.status), r, rest);
    StatusReads(r.status);
    Regroup(SEED, SignedDecimal(r.seed) + status, rest);
    Regroup(SignedDecimal(r.seed), status, rest);
    Regroup(PrintText(STATUS, StatusText(r.status)), PrintFindings(r), rest);
    assert status[0] == STATUS[0];
    NumberReads(SEED, r.seed, status + rest);
    TextReads(STATUS, StatusText(r.status), PrintFindings(r) + rest);
    OneLineJoins(PrintText(STATUS, StatusText(r.status)), PrintFindings(r));
    OneLineJoins(SignedDecimal(r.seed), status);
    OneLineJoins(SEED, SignedDecimal(r.seed) + status);
  }

  /** Reading a printed row gives the row and what follows it. */
  lemma RowReads(r: Row, rest: string)
    ensures ReadRow(Print(r) + rest) == Some((r, rest)) && OneLine(Print(r))
  {
    var lane := PrintText(LANE, r.lane) + PrintOutcome(r);
    OutcomeReads(BLANK.(taskId := r.taskId, lane := r.lane), r, rest);
    Regroup(PrintText(TASK_ID, r.taskId), lane, rest);
    Regroup(PrintText(LANE, r.lane), PrintOutcome(r), rest);
    TextReads(TASK_ID, r.taskId, lane + rest);
    TextReads(LANE, r.lane, PrintOutcome(r) + rest);
    OneLineJoins(PrintText(LANE, r.lane), PrintOutcome(r));
    OneLineJoins(PrintText(TASK_ID, r.taskId), lane);
  }

  /** Parsing undoes printing, for rows with all their fields. */
  lemma RowRoundTrip(r: Row)
    ensures Parse(Print(r)) == Some(r)
  {
    RowReads(r, "");
    assert Print(r) + "" == Print(r);
  }

  /** Two rows that ran into one line are no row. */
  lemma GluedRowsDoNotParse(r: Row, text: string)
    requires text != ""
    ensures Parse(Print(r) + text) == None
  {
    RowReads(r, text);
  }

  lemma EndsWithBrace(r: Row)
    ensures Print(r) != "" && Print(r)[0] == '{' && Print(r)[|Print(r)| - 1] == '}'
  {
    assert Print(r)[0] == PrintText(TASK_ID, r.taskId)[0] == TASK_ID[0];
    EndOf(PrintOptional(ERROR, r.error), "}");
    EndOf(SignedDecimal(r.durationMs), PrintEnd(r));
    EndOf(DURATION, SignedDecimal(r.durationMs) + PrintEnd(r));
    EndOf(SignedDecimal(r.toolCalls), PrintDuration(r));
    EndOf(TOOL_CALLS, SignedDecimal(r.toolCalls) + PrintDuration(r));
    EndOf(PrintOptional(ANSWER, r.answer), PrintCosts(r));
    EndOf(PrintChecks(r.checks), PrintOptional(ANSWER, r.answer) + PrintCosts(r));
    EndOf(CHECKS, PrintChecks(r.checks) + (PrintOptional(ANSWER, r.answer) + PrintCosts(r)));
    EndOf(PrintText(STATUS, StatusText(r.status)), PrintFindings(r));
    EndOf(SignedDecimal(r.seed), PrintText(STATUS, StatusText(r.status)) + PrintFindings(r));
    EndOf(SEED, SignedDecimal(r.seed) + (PrintText(STATUS, StatusText(r.status)) + PrintFindings(r)));
    EndOf(PrintText(LANE, r.lane), PrintOutcome(r));
    EndOf(PrintText(TASK_ID, r.taskId), PrintText(LANE, r.lane) + PrintOutcome(r));
  }

  lemma EndOf(a: string, b: string)
    requires b != ""
    ensures a + b != "" && (a + b)[|a + b| - 1] == b[|b| - 1]
  {
  }

  lemma PrintIsOneLine(r: Row)
    ensures OneLine(Print(r)) && Snug(Print(r))
  {
    RowReads(r, "");
    EndsWithBrace(r);
    BracesAreSnug(Print(r));
  }

  lemma BracesAreSnug(s: string)
    requires s != "" && s[0] == '{' && s[|s| - 1] == '}'
    ensures Snug(s)
  {
  }

  const JSON := Codec(Print, Parse)

  /** The journal's codec laws hold of this printer and parser: nothing about rows is left to
      assume. */
  lemma RowJsonIsLawful()
    ensures JSON.Lawful()
  {
    forall r: Row ensures Parse(Print(r)) == Some(r) && '\n' !in Print(r) && Snug(Print(r)) {
      RowRoundTrip(r);
      PrintIsOneLine(r);
    }
  }

  lemma ReadAlone(text: string, rows: seq<Row>, r: Row)
    requires LineEnded(text) && LoadText(JSON, text) == Ok(rows)
    ensures LoadText(JSON, text + Print(r)) == Ok(rows + [r])
  {
    RowRoundTrip(r);
    PrintIsOneLine(r);
    SnugTrims(Print(r));
    EntriesOfUnended(text, Print(r));
    DecodeSnoc(JSON, Entries(text), Print(r));
  }

  /** A journal whose last row lost its newline still loads; one append later it is unreadable,
      and the next resuming run stops at it. */
  lemma LostNewlineMakesUnreadable(text: string, rows: seq<Row>, last: Row, r: Row)
    requires LineEnded(text) && LoadText(JSON, text) == Ok(rows)
    ensures LoadText(JSON, text + Print(last)) == Ok(rows + [last])
    ensures LoadText(JSON, text + (Print(last) + Print(r)) + "\n") == Err(Print(last) + Print(r))
  {
    var glued := Print(last) + Print(r);
    ReadAlone(text, rows, last);
    PrintIsOneLine(last);
    PrintIsOneLine(r);
    OneLineJoins(Print(last), Print(r));
    assert Snug(glued);
    SnugTrims(glued);
    GluedRowsDoNotParse(last, Print(r));
    EntriesOfAppend(text, glued);
    DecodeSnoc(JSON, Entries(text), glued);
  }
}
