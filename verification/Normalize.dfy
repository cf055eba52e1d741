/** The matching semantics of every text probe: lowercase, fold curly apostrophes, strip
    backticks, turn commas and semicolons into spaces, collapse white space. */
module Normalize {
  import opened Text

  /** What is used of the Unicode lower-case mapping: it is idempotent, and it leaves white
      space, the replaced punctuation, the apostrophe and private-use characters alone. */
  ghost predicate CaseMapping(lower: char -> char) {
    (forall c :: lower(lower(c)) == lower(c))
    && (forall c :: IsSpace(c) || c in "’,;`'" || Private(c) ==> lower(c) == c)
  }

  const PRIVATE_FIRST := 0xE000
  const PRIVATE_COUNT := 6400

  /** The Basic Multilingual Plane's private-use area. */
  predicate Private(c: char) {
    PRIVATE_FIRST <= c as int < PRIVATE_FIRST + PRIVATE_COUNT
  }

  /** The laws can be met: lowering to ASCII letters alone meets them. */
  lemma AsciiIsACaseMapping()
    ensures CaseMapping(LowerChar)
  {
  }

  function Replace(c: char): string {
    if c == '’' then "'" else if c == ',' || c == ';' then " " else if c == '`' then "" else [c]
  }

  function Fold(lower: char -> char, s: string): string {
    if s == "" then "" else Replace(lower(s[0])) + Fold(lower, s[1..])
  }

  /** `strings.Fields`, with the field read so far. */
  function FieldsFrom(s: string, field: string): seq<string> {
    if s == "" then (if field == "" then [] else [field])
    else if IsSpace(s[0]) then (if field == "" then [] else [field]) + FieldsFrom(s[1..], "")
    else FieldsFrom(s[1..], field + [s[0]])
  }

  function Fields(s: string): seq<string> {
    FieldsFrom(s, "")
  }

  function NormalizeText(lower: char -> char, s: string): string {
    Join(Fields(Fold(lower, s)), " ")
  }

  // ---------------------------------------------------------------- shape of the result

  predicate Field(f: string) {
    f != "" && forall i :: 0 <= i < |f| ==> !IsSpace(f[i])
  }

  lemma {:induction false} FieldsAreFields(s: string, field: string)
    requires field == "" || Field(field)
    ensures forall f :: f in FieldsFrom(s, field) ==> Field(f)
  {
    if s != "" {
      if IsSpace(s[0]) {
        FieldsAreFields(s[1..], "");
      } else {
        FieldsAreFields(s[1..], field + [s[0]]);
      }
    }
  }

  lemma {:induction false} JoinOfFieldsIsSnug(fs: seq<string>)
    requires fs != [] && forall f :: f in fs ==> Field(f)
    ensures Snug(Join(fs, " "))
  {
    assert Field(fs[0]);
    if |fs| > 1 {
      JoinOfFieldsIsSnug(fs[1..]);
    }
  }

  /** Normalised text is empty or starts and ends outside white space. */
  lemma NormalizedIsSnug(lower: char -> char, s: string)
    ensures NormalizeText(lower, s) == "" || Snug(NormalizeText(lower, s))
  {
    var fs := Fields(Fold(lower, s));
    FieldsAreFields(Fold(lower, s), "");
    if fs != [] {
      JoinOfFieldsIsSnug(fs);
    }
  }

  // ---------------------------------------------------------------- concatenation

  lemma {:induction false} FoldAppend(lower: char -> char, a: string, b: string)
    ensures Fold(lower, a + b) == Fold(lower, a) + Fold(lower, b)
  {
    if a == "" {
      assert a + b == b;
    } else {
      assert (a + b)[1..] == a[1..] + b;
      FoldAppend(lower, a[1..], b);
    }
  }

  lemma {:induction false} FieldsAcrossSpace(a: string, b: string, field: string)
    ensures FieldsFrom(a + " " + b, field) == FieldsFrom(a, field) + Fields(b)
  {
    var s := a + " " + b;
    assert IsSpace(' ');
    if a == "" {
      assert s[1..] == b;
    } else {
      assert s[1..] == a[1..] + " " + b;
      FieldsAcrossSpace(a[1..], b, if IsSpace(a[0]) then "" else field + [a[0]]);
    }
  }

  /** Two normalised texts side by side. */
  function Glue(a: string, b: string): string {
    if a == "" then b else if b == "" then a else a + " " + b
  }

  lemma {:induction false} JoinAppend(a: seq<string>, b: seq<string>)
    requires forall f :: f in a + b ==> Field(f)
    ensures Join(a + b, " ") == Glue(Join(a, " "), Join(b, " "))
  {
    if a == [] {
      assert a + b == b;
    } else {
      assert a[0] in a + b;
      assert (a + b)[1..] == a[1..] + b;
      forall f | f in a[1..] + b ensures Field(f) { assert f in a + b; }
      JoinAppend(a[1..], b);
      if b != [] {
        forall f | f in b ensures Field(f) { assert f in a + b; }
        JoinOfFieldsIsSnug(b);
      } else {
        assert a + b == a;
      }
      if a[1..] != [] {
        forall f | f in a[1..] ensures Field(f) { assert f in a + b; }
        JoinOfFieldsIsSnug(a[1..]);
      }
    }
  }

  /** Normalising two texts set apart by a space is normalising each. */
  lemma NormalizeAcrossSpace(lower: char -> char, a: string, b: string)
    requires CaseMapping(lower)
    ensures NormalizeText(lower, a + " " + b)
         == Glue(NormalizeText(lower, a), NormalizeText(lower, b))
  {
    assert IsSpace(' ');
    FoldAppend(lower, a + " ", b);
    FoldAppend(lower, a, " ");
    assert Fold(lower, " ") == " ";
    var fa, fb := Fold(lower, a), Fold(lower, b);
    assert Fold(lower, a + " " + b) == fa + " " + fb;
    FieldsAcrossSpace(fa, fb, "");
    FieldsAreFields(fa, "");
    FieldsAreFields(fb, "");
    JoinAppend(Fields(fa), Fields(fb));
  }

  // ---------------------------------------------------------------- idempotence

  /** Folding maps the character to itself. */
  predicate Stable(lower: char -> char, c: char) {
    lower(c) == c && Replace(c) == [c]
  }

  lemma {:induction false} FoldedIsStable(lower: char -> char, s: string)
    requires CaseMapping(lower)
    ensures forall i :: 0 <= i < |Fold(lower, s)| ==> Stable(lower, Fold(lower, s)[i])
  {
    if s != "" {
      FoldedIsStable(lower, s[1..]);
      ReplacedIsStable(lower, lower(s[0]));
    }
  }

  lemma ReplacedIsStable(lower: char -> char, c: char)
    requires CaseMapping(lower) && lower(c) == c
    ensures forall i :: 0 <= i < |Replace(c)| ==> Stable(lower, Replace(c)[i])
  {
    assert lower('\'') == '\'' && IsSpace(' ') && lower(' ') == ' ';
  }

  lemma {:induction false} FoldOfStable(lower: char -> char, s: string)
    requires forall i :: 0 <= i < |s| ==> Stable(lower, s[i])
    ensures Fold(lower, s) == s
  {
    if s != "" {
      FoldOfStable(lower, s[1..]);
    }
  }

  lemma {:induction false} FieldsKeepChars(s: string, field: string, p: char -> bool)
    requires forall i :: 0 <= i < |s| ==> p(s[i])
    requires forall i :: 0 <= i < |field| ==> p(field[i])
    ensures forall f, i :: f in FieldsFrom(s, field) && 0 <= i < |f| ==> p(f[i])
  {
    if s != "" {
      FieldsKeepChars(s[1..], if IsSpace(s[0]) then "" else field + [s[0]], p);
    }
  }

  lemma {:induction false} JoinKeepsChars(fs: seq<string>, p: char -> bool)
    requires p(' ')
    requires forall f, i :: f in fs && 0 <= i < |f| ==> p(f[i])
    ensures forall i :: 0 <= i < |Join(fs, " ")| ==> p(Join(fs, " ")[i])
  {
    if |fs| > 1 {
      JoinKeepsChars(fs[1..], p);
      assert fs[0] in fs;
    } else if |fs| == 1 {
      assert fs[0] in fs;
    }
  }

  lemma {:induction false} FieldsOfField(f: string, field: string)
    requires forall i :: 0 <= i < |f| ==> !IsSpace(f[i])
    ensures FieldsFrom(f, field) == if field + f == "" then [] else [field + f]
  {
    if f != "" {
      FieldsOfField(f[1..], field + [f[0]]);
      assert field + [f[0]] + f[1..] == field + f;
    } else {
      assert field + f == field;
    }
  }

  lemma {:induction false} FieldsOfJoin(fs: seq<string>)
    requires forall f :: f in fs ==> Field(f)
    ensures Fields(Join(fs, " ")) == fs
  {
    if fs != [] {
      assert Field(fs[0]);
      FieldsOfField(fs[0], "");
      assert "" + fs[0] == fs[0];
      if |fs| > 1 {
        FieldsOfJoin(fs[1..]);
        FieldsAcrossSpace(fs[0], Join(fs[1..], " "), "");
        assert fs == [fs[0]] + fs[1..];
      }
    }
  }

  /** Normalising twice is normalising once. */
  lemma NormalizeIdempotent(lower: char -> char, s: string)
    requires CaseMapping(lower)
    ensures NormalizeText(lower, NormalizeText(lower, s)) == NormalizeText(lower, s)
  {
    var folded := Fold(lower, s);
    var fs := Fields(folded);
    var p := (c: char) => Stable(lower, c);
    FoldedIsStable(lower, s);
    FieldsKeepChars(folded, "", p);
    assert IsSpace(' ');
    JoinKeepsChars(fs, p);
    FoldOfStable(lower, Join(fs, " "));
    FieldsAreFields(folded, "");
    FieldsOfJoin(fs);
  }

  // ---------------------------------------------------------------- substrings of glued text

  lemma ContainsInGlue(a: string, b: string, sub: string)
    requires Contains(a, sub) || Contains(b, sub)
    ensures Contains(Glue(a, b), sub)
  {
    var g := Glue(a, b);
    if i :| OccursAt(a, sub, i) {
      OccursInPart(g, 0, a, sub, i);
    } else {
      var i :| OccursAt(b, sub, i);
      OccursInPart(g, |g| - |b|, b, sub, i);
    }
  }

  lemma OccursInPart(s: string, off: nat, part: string, sub: string, i: int)
    requires off + |part| <= |s| && s[off..off + |part|] == part && OccursAt(part, sub, i)
    ensures OccursAt(s, sub, off + i)
  {
    forall k | 0 <= k < |sub| ensures s[off + i + k] == sub[k] {
      assert part[i + k] == part[i..i + |sub|][k];
      assert s[off + i + k] == s[off..off + |part|][i + k];
    }
  }

  /** A snug text without the separator character that occurs in `a sep b` occurs in one
      of the two. */
  lemma SplitAtSeparator(a: string, sep: char, b: string, sub: string)
    requires Snug(sub) && sep !in sub
    requires Contains(Glue(Glue(a, [sep]), b), sub)
    ensures Contains(a, sub) || Contains(b, sub)
  {
    var left := Glue(a, [sep]);
    var g := Glue(left, b);
    var at := |left| - 1;
    assert g[at] == sep;
    var i :| OccursAt(g, sub, i);
    var n := |sub|;
    forall k | i <= k < i + n ensures g[k] != sep {
      assert g[k] == g[i..i + n][k - i] == sub[k - i];
    }
    assert g[i] == g[i..i + n][0] == sub[0];
    assert g[i + n - 1] == g[i..i + n][n - 1] == sub[n - 1];
    assert IsSpace(' ');
    assert a != "" ==> at == |a| + 1 && g[at - 1] == ' ';
    if i + n <= at {
      assert i + n < at;
      assert a == g[..|a|];
      assert a[i..i + n] == g[i..i + n];
      assert OccursAt(a, sub, i);
    } else {
      assert b != "" && g[at + 1] == ' ';
      assert i >= at + 2;
      assert b == g[at + 2..];
      assert b[i - at - 2..i - at - 2 + n] == g[i..i + n];
      assert OccursAt(b, sub, i - at - 2);
    }
  }

  // ---------------------------------------------------------------- a fresh separator

  lemma {:induction false} CharsBounded(s: string)
    ensures |set c | c in s| <= |s|
  {
    if s != "" {
      CharsBounded(s[1..]);
      assert s == [s[0]] + s[1..];
      assert (set c | c in s) == {s[0]} + (set c | c in s[1..]);
    }
  }

  function PrivateChars(n: nat): (r: set<char>)
    requires n <= PRIVATE_COUNT
    ensures |r| == n
    ensures forall c :: c in r <==> PRIVATE_FIRST <= c as int < PRIVATE_FIRST + n
  {
    if n == 0 then {} else {(PRIVATE_FIRST + n - 1) as char} + PrivateChars(n - 1)
  }

  lemma SubsetCount<T>(a: set<T>, b: set<T>)
    requires a <= b
    ensures |a| <= |b|
  {
    assert |b| == |a| + |b - a| by {
      assert b == a + (b - a);
    }
  }

  /** Text shorter than the private-use area misses one of its characters. */
  lemma FreshPrivate(s: string) returns (x: char)
    requires |s| < PRIVATE_COUNT
    ensures Private(x) && x !in s
  {
    var used := set c | c in s;
    CharsBounded(s);
    if PrivateChars(PRIVATE_COUNT) <= used {
      SubsetCount(PrivateChars(PRIVATE_COUNT), used);
    }
    x :| x in PrivateChars(PRIVATE_COUNT) && x !in used;
  }
}
