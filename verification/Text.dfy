/** The pieces of Go's `strings` package the modelled code relies on: the white-space
    class, trimming, splitting on one character, joining and substring search. */
module Text {
  import opened Sequences

  /** White_Space as `unicode.IsSpace` has it. */
  predicate IsSpace(c: char) {
    c in "\t\n\r \U{000B}\U{000C}\U{0085}\U{00A0}\U{1680}\U{2028}\U{2029}\U{202F}\U{205F}\U{3000}"
    || '\U{2000}' <= c <= '\U{200A}'
  }

  function TrimLeft(s: string): (r: string)
    ensures |r| <= |s|
    ensures r != "" ==> !IsSpace(r[0])
  {
    if s != "" && IsSpace(s[0]) then TrimLeft(s[1..]) else s
  }

  function TrimRight(s: string): (r: string)
    ensures r != "" ==> !IsSpace(r[|r| - 1])
  {
    if s != "" && IsSpace(s[|s| - 1]) then TrimRight(s[..|s| - 1]) else s
  }

  function TrimSpace(s: string): string {
    TrimRight(TrimLeft(s))
  }

  /** `strings.ToLower` as far as ASCII letters come out of it, which is all that a comparison
      with an ASCII text sees: two letters outside ASCII lower to one inside, U+0130 and the
      Kelvin sign U+212A. */
  function Lowered(s: string): string {
    Map(LowerChar, s)
  }

  function LowerChar(c: char): char {
    if 'A' <= c <= 'Z' then (c as int + 32) as char
    else if c == '\U{0130}' then 'i'
    else if c == '\U{212A}' then 'k'
    else c
  }

  /** Nothing to trim: not empty and no white space at either end. */
  predicate Snug(s: string) {
    s != "" && !IsSpace(s[0]) && !IsSpace(s[|s| - 1])
  }

  lemma SnugTrims(s: string)
    requires Snug(s)
    ensures TrimSpace(s) == s
  {
  }

  /** Text is blank when trimming leaves nothing, which is when it is all white space. */
  predicate Blank(s: string) {
    TrimSpace(s) == ""
  }

  lemma {:induction false} TrimRightBlank(s: string)
    ensures TrimRight(s) == "" <==> forall c :: c in s ==> IsSpace(c)
  {
    if s != "" && IsSpace(s[|s| - 1]) {
      TrimRightBlank(s[..|s| - 1]);
      assert s == s[..|s| - 1] + [s[|s| - 1]];
    } else if s != "" {
      assert s[|s| - 1] in s;
    }
  }

  lemma {:induction false} TrimLeftBlank(s: string)
    ensures TrimLeft(s) == "" <==> forall c :: c in s ==> IsSpace(c)
    ensures (forall c :: c in TrimLeft(s) ==> IsSpace(c)) ==> TrimLeft(s) == ""
  {
    if s != "" && IsSpace(s[0]) {
      TrimLeftBlank(s[1..]);
      assert s == [s[0]] + s[1..];
    } else if s != "" {
      assert s[0] in s;
    }
  }

  lemma BlankMeans(s: string)
    ensures Blank(s) <==> forall c :: c in s ==> IsSpace(c)
  {
    TrimLeftBlank(s);
    TrimRightBlank(TrimLeft(s));
  }

  predicate OneLine(s: string) {
    '\n' !in s
  }

  /** `strings.Split(s, "\n")`. */
  function Lines(s: string): (ls: seq<string>)
    ensures |ls| >= 1
  {
    if s == "" then [""]
    else
      var rest := Lines(s[1..]);
      if s[0] == '\n' then [""] + rest else [[s[0]] + rest[0]] + rest[1..]
  }

  lemma {:induction false} LinesOfOne(s: string)
    requires '\n' !in s
    ensures Lines(s) == [s]
  {
    if s != "" {
      LinesOfOne(s[1..]);
      assert s == [s[0]] + s[1..];
    }
  }

  lemma {:induction false} LinesSplit(a: string, b: string)
    ensures Lines(a + "\n" + b) == Lines(a) + Lines(b)
  {
    var whole := a + "\n" + b;
    if a == "" {
      assert whole[1..] == b;
    } else {
      assert whole[1..] == a[1..] + "\n" + b;
      LinesSplit(a[1..], b);
    }
  }

  lemma {:induction false} LinesHaveNoNewline(s: string, l: string)
    requires l in Lines(s)
    ensures '\n' !in l
  {
    if s != "" {
      var rest := Lines(s[1..]);
      if s[0] == '\n' {
        if l != "" { LinesHaveNoNewline(s[1..], l); }
      } else if l == [s[0]] + rest[0] {
        LinesHaveNoNewline(s[1..], rest[0]);
      } else {
        LinesHaveNoNewline(s[1..], l);
      }
    }
  }

  const LOWER_HEX := "0123456789abcdef"

  const UPPER_HEX := "0123456789ABCDEF"

  predicate HexDigits(digits: string) {
    digits == LOWER_HEX || digits == UPPER_HEX
  }

  function HexDigit(digits: string, n: nat): char
    requires HexDigits(digits) && n < 16
  {
    digits[n]
  }

  function HexValue(c: char): (n: Option<nat>)
    ensures n.Some? ==> n.value < 16
  {
    if '0' <= c <= '9' then Some(c as int - '0' as int)
    else if 'a' <= c <= 'f' then Some(c as int - 'a' as int + 10)
    else if 'A' <= c <= 'F' then Some(c as int - 'A' as int + 10)
    else None
  }

  lemma HexRoundTrip(digits: string, n: nat)
    requires HexDigits(digits) && n < 16
    ensures HexValue(HexDigit(digits, n)) == Some(n) && HexDigit(digits, n) != '\n'
    ensures HexDigit(digits, n) !in "/?#{}"
  {
  }

  function Join(parts: seq<string>, sep: string): string {
    if parts == [] then "" else if |parts| == 1 then parts[0]
    else parts[0] + sep + Join(parts[1..], sep)
  }

  /** `strings.Contains`. */
  ghost predicate Contains(s: string, sub: string) {
    exists i :: OccursAt(s, sub, i)
  }

  predicate OccursAt(s: string, sub: string, i: int) {
    0 <= i <= |s| - |sub| && s[i..i + |sub|] == sub
  }
}
