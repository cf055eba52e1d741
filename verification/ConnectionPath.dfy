/** Binding a verb's arguments into its path template, and the check that the joined URL
    stayed where the template pinned it. Strings are bytes: every character is below 256. */
module ConnectionPath {
  import opened Sequences
  import opened Text

  ghost predicate ByteText(s: string) {
    forall i :: 0 <= i < |s| ==> s[i] as int < 256
  }

  // ---------------------------------------------------------------- percent encoding

  /** Bytes a path segment carries as they are. */
  predicate Plain(c: char) {
    'a' <= c <= 'z' || 'A' <= c <= 'Z' || '0' <= c <= '9' || c in "-_.~$&+:=@"
  }

  function EscapeByte(c: char): string {
    if Plain(c) || c as int >= 256 then [c]
    else ['%', HexDigit(UPPER_HEX, c as int / 16), HexDigit(UPPER_HEX, c as int % 16)]
  }

  function PathEscape(s: string): string {
    if s == "" then "" else EscapeByte(s[0]) + PathEscape(s[1..])
  }

  /** Percent-decoding, or nothing for an escape that is cut short or not hexadecimal. */
  function Decode(s: string): Option<string> {
    if s == "" then Some("")
    else if s[0] != '%' then Prepend(s[0], Decode(s[1..]))
    else if |s| < 3 || HexValue(s[1]).None? || HexValue(s[2]).None? then None
    else Prepend((16 * HexValue(s[1]).value + HexValue(s[2]).value) as char, Decode(s[3..]))
  }

  function Prepend(c: char, rest: Option<string>): Option<string> {
    if rest.None? then None else Some([c] + rest.value)
  }

  lemma {:induction false} DecodeAppend(a: string, b: string)
    requires Decode(a).Some? && Decode(b).Some?
    ensures Decode(a + b) == Some(Decode(a).value + Decode(b).value)
  {
    if a == "" {
      assert a + b == b && Decode(a).value + Decode(b).value == Decode(b).value;
    } else {
      var n := if a[0] == '%' then 3 else 1;
      assert (a + b)[n..] == a[n..] + b;
      assert (a + b)[0] == a[0] && (n == 3 ==> (a + b)[1] == a[1] && (a + b)[2] == a[2]);
      DecodeAppend(a[n..], b);
      Regroup([Decode(a).value[0]], Decode(a[n..]).value, Decode(b).value);
      assert Decode(a).value == [Decode(a).value[0]] + Decode(a[n..]).value;
    }
  }

  lemma {:induction false} DecodeShortens(s: string)
    requires Decode(s).Some?
    ensures |Decode(s).value| <= |s|
  {
    if s != "" { DecodeShortens(if s[0] == '%' then s[3..] else s[1..]); }
  }

  lemma {:induction false} PlainDecodes(s: string)
    requires '%' !in s
    ensures Decode(s) == Some(s)
  {
    if s != "" {
      assert s[0] in s && s == [s[0]] + s[1..];
      PlainDecodes(s[1..]);
    }
  }

  lemma ByteRoundTrip(c: char)
    requires c as int < 256
    ensures Decode(EscapeByte(c)) == Some([c])
  {
    if !Plain(c) {
      HexRoundTrip(UPPER_HEX, c as int / 16);
      HexRoundTrip(UPPER_HEX, c as int % 16);
      assert EscapeByte(c)[3..] == "";
    } else {
      assert EscapeByte(c) == [c] && [c][1..] == "" && [c] + "" == [c] && c != '%';
    }
  }

  /** Decoding undoes escaping (section 2.1 of RFC 3986). */
  lemma {:induction false} EscapeRoundTrip(s: string)
    requires ByteText(s)
    ensures Decode(PathEscape(s)) == Some(s)
  {
    if s != "" {
      ByteRoundTrip(s[0]);
      EscapeRoundTrip(s[1..]);
      DecodeAppend(EscapeByte(s[0]), PathEscape(s[1..]));
      assert s == [s[0]] + s[1..];
    }
  }

  /** What `url.Parse` takes no text with. */
  predicate Control(c: char) {
    c < ' ' || c == '\U{007F}'
  }

  predicate HasControl(s: string) {
    exists c :: c in s && Control(c)
  }

  lemma EscapeByteIsInert(c: char, b: char)
    requires c as int < 256 && b in EscapeByte(c)
    ensures b !in "/?#{}" && !Control(b)
  {
    if !Plain(c) {
      HexRoundTrip(UPPER_HEX, c as int / 16);
      HexRoundTrip(UPPER_HEX, c as int % 16);
    }
  }

  /** An escaped value has no character that ends a segment or a path, and none that a URL is
      refused for. */
  lemma {:induction false} EscapeIsInert(s: string, c: char)
    requires ByteText(s) && c in PathEscape(s)
    ensures c !in "/?#{}" && !Control(c)
  {
    if c in PathEscape(s[1..]) {
      EscapeIsInert(s[1..], c);
    } else {
      EscapeByteIsInert(s[0], c);
    }
  }

  // ---------------------------------------------------------------- binding the template

  function IndexOf(s: string, c: char, from: nat): (r: Option<nat>)
    requires from <= |s|
    ensures r.Some? ==> from <= r.value < |s| && s[r.value] == c
    ensures forall j :: from <= j && (if r.Some? then j < r.value else j < |s|) ==> s[j] != c
    decreases |s| - from
  {
    if from == |s| then None else if s[from] == c then Some(from) else IndexOf(s, c, from + 1)
  }

  /** The name of the placeholder that starts at `i` and has a value. */
  function HoleAt(template: string, values: map<string, string>, i: nat): (r: Option<string>)
    requires i < |template|
    ensures r.Some? ==> r.value in values && i + |r.value| + 2 <= |template|
  {
    if template[i] != '{' then None
    else
      match IndexOf(template, '}', i)
      case None => None
      case Some(j) => if template[i + 1..j] in values then Some(template[i + 1..j]) else None
  }

  function BindFrom(template: string, values: map<string, string>, i: nat): string
    requires i <= |template|
    decreases |template| - i
  {
    if i == |template| then ""
    else
      match HoleAt(template, values, i)
      case None => [template[i]] + BindFrom(template, values, i + 1)
      case Some(name) => values[name] + BindFrom(template, values, i + |name| + 2)
  }

  method BindPathTemplate(template: string, values: map<string, string>) returns (b: string)
    ensures b == BindFrom(template, values, 0)
  {
    b := "";
    var i := 0;
    while i < |template|
      invariant 0 <= i <= |template|
      invariant b + BindFrom(template, values, i) == BindFrom(template, values, 0)
    {
      var hole := HoleAt(template, values, i);
      if hole.Some? {
        var next := i + |hole.value| + 2;
        Regroup(b, values[hole.value], BindFrom(template, values, next));
        b := b + values[hole.value];
        i := next;
        continue;
      }
      Regroup(b, [template[i]], BindFrom(template, values, i + 1));
      b := b + [template[i]];
      i := i + 1;
    }
  }

  // ---------------------------------------------------------------- templates as pieces

  datatype Piece = Literal(text: string) | Hole(name: string)

  function Render(ps: seq<Piece>): string {
    if ps == [] then ""
    else (match ps[0] case Literal(t) => t case Hole(n) => "{" + n + "}") + Render(ps[1..])
  }

  function Fill(ps: seq<Piece>, values: map<string, string>): string {
    if ps == [] then ""
    else
      (match ps[0] case Literal(t) => t case Hole(n) => if n in values then values[n] else "") + Fill(ps[1..], values)
  }

  predicate NameText(s: string) {
    '{' !in s && '}' !in s && '/' !in s
  }

  /** A template recipe validation lets through: balanced braces around names, and a value for
      every name. */
  ghost predicate Validated(ps: seq<Piece>, values: map<string, string>) {
    forall i :: 0 <= i < |ps| ==>
      match ps[i]
      case Literal(t) => t != "" && '{' !in t && '}' !in t
      case Hole(n) => NameText(n) && n in values
  }

  lemma {:induction false} SkipLiteral(template: string, values: map<string, string>, i: nat, j: nat)
    requires i <= j <= |template| && forall p :: i <= p < j ==> template[p] != '{'
    ensures BindFrom(template, values, i) == template[i..j] + BindFrom(template, values, j)
    decreases j - i
  {
    if i < j {
      SkipLiteral(template, values, i + 1, j);
      assert template[i..j] == [template[i]] + template[i + 1..j];
      Regroup([template[i]], template[i + 1..j], BindFrom(template, values, j));
    }
  }

  lemma FirstAt(s: string, c: char, i: nat, j: nat)
    requires i <= j < |s| && s[j] == c && forall p :: i <= p < j ==> s[p] != c
    ensures IndexOf(s, c, i) == Some(j)
  {
    var r := IndexOf(s, c, i);
  }

  lemma BindLiteral(before: string, t: string, rest: string, values: map<string, string>)
    requires '{' !in t
    ensures BindFrom(before + t + rest, values, |before|)
         == t + BindFrom(before + t + rest, values, |before + t|)
  {
    var whole, i, j := before + t + rest, |before|, |before + t|;
    assert whole[i..j] == t;
    assert forall p :: i <= p < j ==> whole[p] == t[p - i] && t[p - i] in t;
    SkipLiteral(whole, values, i, j);
  }

  ghost predicate HoleIn(whole: string, i: nat, n: string) {
    i + |n| + 2 <= |whole| && whole[i] == '{' && whole[i + 1..i + |n| + 1] == n && whole[i + |n| + 1] == '}'
  }

  lemma HoleCloses(whole: string, i: nat, n: string)
    requires HoleIn(whole, i, n) && '}' !in n
    ensures IndexOf(whole, '}', i) == Some(i + |n| + 1)
  {
    forall p | i <= p < i + |n| + 1 ensures whole[p] != '}' {
      if p > i { assert whole[p] == whole[i + 1..i + |n| + 1][p - i - 1]; }
    }
    FirstAt(whole, '}', i, i + |n| + 1);
  }

  lemma HoleBinds(whole: string, i: nat, n: string, values: map<string, string>)
    requires HoleIn(whole, i, n) && '}' !in n && n in values
    ensures BindFrom(whole, values, i) == values[n] + BindFrom(whole, values, i + |n| + 2)
  {
    HoleCloses(whole, i, n);
  }

  lemma BindHole(before: string, n: string, rest: string, values: map<string, string>)
    requires NameText(n) && n in values
    ensures var hole := "{" + n + "}";
      BindFrom(before + hole + rest, values, |before|)
      == values[n] + BindFrom(before + hole + rest, values, |before + hole|)
  {
    var hole := "{" + n + "}";
    var whole, i := before + hole + rest, |before|;
    assert whole[i..i + |hole|] == hole;
    assert whole[i] == hole[0] && whole[i + |n| + 1] == hole[|n| + 1];
    assert whole[i + 1..i + |n| + 1] == n;
    HoleBinds(whole, i, n, values);
  }

  /** The byte loop does to a validated template what substituting piece by piece does. */
  lemma {:induction false} BindFills(before: string, ps: seq<Piece>, values: map<string, string>)
    requires Validated(ps, values)
    ensures BindFrom(before + Render(ps), values, |before|) == Fill(ps, values)
    decreases |ps|
  {
    if ps == [] {
      assert before + Render(ps) == before;
    } else {
      var rest := Render(ps[1..]);
      match ps[0]
      case Literal(t) =>
        Regroup(before, t, rest);
        BindLiteral(before, t, rest, values);
        BindFills(before + t, ps[1..], values);
      case Hole(n) =>
        Regroup(before, "{" + n + "}", rest);
        BindHole(before, n, rest, values);
        BindFills(before + ("{" + n + "}"), ps[1..], values);
    }
  }

  // ---------------------------------------------------------------- what a bound path means

  function FirstDots(s: string, i: nat): bool
    requires i <= |s|
    decreases |s| - i
  {
    i + 2 <= |s| && (s[i..i + 2] == ".." || FirstDots(s, i + 1))
  }

  /** A value that stays one path segment. `absolute` says that it parses as an absolute or
      host-carrying URL. */
  predicate Accepted(value: string, absolute: string -> bool) {
    value != "" && '/' !in value && '\\' !in value && !FirstDots(value, 0) && !absolute(value)
  }

  function Escaped(raw: map<string, string>): map<string, string> {
    map n | n in raw :: PathEscape(raw[n])
  }

  /** No percent sign in the template's own text. */
  ghost predicate PlainLiterals(ps: seq<Piece>) {
    forall i :: 0 <= i < |ps| && ps[i].Literal? ==> '%' !in ps[i].text
  }

  /** What a router sees after decoding is the template with the raw values filled in. */
  lemma {:induction false} BoundPathDecodes(ps: seq<Piece>, raw: map<string, string>)
    requires Validated(ps, raw) && PlainLiterals(ps) && forall n :: n in raw ==> ByteText(raw[n])
    ensures Decode(Fill(ps, Escaped(raw))) == Some(Fill(ps, raw))
  {
    if ps != [] {
      BoundPathDecodes(ps[1..], raw);
      match ps[0]
      case Literal(t) =>
        PlainDecodes(t);
        DecodeAppend(t, Fill(ps[1..], Escaped(raw)));
      case Hole(n) =>
        EscapeRoundTrip(raw[n]);
        DecodeAppend(PathEscape(raw[n]), Fill(ps[1..], Escaped(raw)));
    }
  }

  function Count(s: string, c: char): nat {
    if s == "" then 0 else (if s[0] == c then 1 else 0) + Count(s[1..], c)
  }

  lemma {:induction false} CountAppend(a: string, b: string, c: char)
    ensures Count(a + b, c) == Count(a, c) + Count(b, c)
  {
    if a == "" {
      assert a + b == b;
    } else {
      assert (a + b)[1..] == a[1..] + b;
      CountAppend(a[1..], b, c);
    }
  }

  lemma {:induction false} CountNone(s: string, c: char)
    requires c !in s
    ensures Count(s, c) == 0
  {
    if s != "" {
      assert s[0] in s;
      CountNone(s[1..], c);
    }
  }

  /** Binding neither adds nor removes a path separator. */
  lemma {:induction false} BindingKeepsSeparators(ps: seq<Piece>, raw: map<string, string>)
    requires Validated(ps, raw) && forall n :: n in raw ==> ByteText(raw[n])
    ensures Count(Fill(ps, Escaped(raw)), '/') == Count(Render(ps), '/')
  {
    if ps != [] {
      var rest, filled := Render(ps[1..]), Fill(ps[1..], Escaped(raw));
      BindingKeepsSeparators(ps[1..], raw);
      match ps[0]
      case Literal(t) =>
        CountAppend(t, rest, '/');
        CountAppend(t, filled, '/');
      case Hole(n) =>
        CountAppend("{" + n + "}", rest, '/');
        CountNone("{" + n + "}", '/');
        CountAppend(PathEscape(raw[n]), filled, '/');
        if '/' in PathEscape(raw[n]) { EscapeIsInert(raw[n], '/'); }
        CountNone(PathEscape(raw[n]), '/');
    }
  }

  /** Everything before the first brace. */
  function LiteralTemplatePrefix(template: string): string {
    match IndexOf(template, '{', 0)
    case Some(i) => template[..i]
    case None => template
  }

  lemma {:induction false} PrefixSurvives(ps: seq<Piece>, values: map<string, string>)
    requires Validated(ps, values)
    ensures LiteralTemplatePrefix(Render(ps)) <= Fill(ps, values)
  {
    if ps != [] {
      var whole, rest := Render(ps), Render(ps[1..]);
      match ps[0]
      case Literal(t) =>
        PrefixSurvives(ps[1..], values);
        PrefixBehind(t, rest);
      case Hole(n) =>
        assert whole[0] == '{';
        FirstAt(whole, '{', 0, 0);
    }
  }

  lemma PrefixBehind(t: string, rest: string)
    requires '{' !in t
    ensures LiteralTemplatePrefix(t + rest) == t + LiteralTemplatePrefix(rest)
  {
    var whole := t + rest;
    assert forall p :: 0 <= p < |t| ==> whole[p] == t[p] && t[p] in t;
    assert forall p :: 0 <= p < |rest| ==> whole[|t| + p] == rest[p];
    match IndexOf(rest, '{', 0)
    case Some(i) => FirstAt(whole, '{', 0, |t| + i);
    case None =>
  }

  // ---------------------------------------------------------------- the pin

  predicate DotDotAt(s: string, i: nat) {
    i + 2 <= |s| && s[i] == '.' && s[i + 1] == '.' && (i == 0 || s[i - 1] == '/') && (i + 2 == |s| || s[i + 2] == '/')
  }

  ghost predicate TraversesFrom(s: string, start: nat) {
    exists i: nat :: start <= i && DotDotAt(s, i)
  }

  ghost predicate Traverses(s: string) {
    TraversesFrom(s, 0)
  }

  /** The path split at its separators, from the segment that starts at `start`. */
  function SegmentsFrom(s: string, start: nat): seq<string>
    requires start <= |s|
    decreases |s| - start
  {
    match IndexOf(s, '/', start)
    case None => [s[start..]]
    case Some(j) => [s[start..j]] + SegmentsFrom(s, j + 1)
  }

  lemma NextSegment(s: string, start: nat, end: nat)
    requires start <= end && forall i: nat :: start < i <= end ==> !DotDotAt(s, i)
    ensures TraversesFrom(s, start) <==> DotDotAt(s, start) || TraversesFrom(s, end + 1)
  {
    if i: nat :| start < i && DotDotAt(s, i) {
      assert end + 1 <= i;
    }
    if DotDotAt(s, start) { assert start <= start; }
  }

  lemma OneSegment(s: string, start: nat, end: nat)
    requires start <= end <= |s| && (start == 0 || s[start - 1] == '/') && (end < |s| ==> s[end] == '/')
    requires forall i :: start <= i < end ==> s[i] != '/'
    ensures s[start..end] == ".." <==> DotDotAt(s, start)
    ensures forall i: nat :: start < i <= end ==> !DotDotAt(s, i)
  {
    if DotDotAt(s, start) { assert end == start + 2; }
    forall i: nat | start < i <= end ensures !DotDotAt(s, i) { assert s[i - 1] != '/'; }
  }

  lemma {:induction false} DotDotSegments(s: string, start: nat)
    requires start <= |s| && (start == 0 || s[start - 1] == '/')
    ensures ".." in SegmentsFrom(s, start) <==> TraversesFrom(s, start)
    decreases |s| - start
  {
    var slash := IndexOf(s, '/', start);
    var end := if slash.None? then |s| else slash.value;
    OneSegment(s, start, end);
    NextSegment(s, start, end);
    if slash.Some? {
      DotDotSegments(s, end + 1);
      assert SegmentsFrom(s, start) == [s[start..end]] + SegmentsFrom(s, end + 1);
    } else {
      assert s[start..] == s[start..end];
      assert SegmentsFrom(s, start) == [s[start..end]];
    }
  }

  /** The parts of a parsed URL the pin looks at; the path is the decoded one. */
  datatype Url = Url(scheme: string, host: string, path: string)

  /** The URL keeps the pinned scheme and host, its path stays under the root and no segment of
      it climbs. */
  method ValidatePinnedURL(u: Url, pin: Url) returns (ok: bool)
    ensures ok <==> u.scheme == pin.scheme && u.host == pin.host && pin.path <= u.path && !Traverses(u.path)
  {
    DotDotSegments(u.path, 0);
    if u.scheme != pin.scheme || u.host != pin.host {
      return false;
    }
    if !(pin.path <= u.path) {
      return false;
    }
    var segments := SegmentsFrom(u.path, 0);
    for i := 0 to |segments|
      invariant ".." !in segments[..i]
    {
      if segments[i] == ".." {
        return false;
      }
    }
    assert segments[..|segments|] == segments;
    return true;
  }

  // ---------------------------------------------------------------- parsing the joined text

  /** The path component of a URL reference. */
  function PathPart(s: string): string {
    if s == "" || s[0] == '?' || s[0] == '#' then "" else [s[0]] + PathPart(s[1..])
  }

  /** The decoded path `url.Parse` finds in the text behind scheme and host. It takes no control
      character before a fragment, and neither a path nor a fragment with a broken escape. */
  function ParsedPath(joined: string): Option<string> {
    var hash := IndexOf(joined, '#', 0);
    var end := if hash.None? then |joined| else hash.value;
    if HasControl(joined[..end]) then None
    else if hash.Some? && Decode(joined[end + 1..]).None? then None
    else Decode(PathPart(joined))
  }

  lemma {:induction false} PathPartStops(path: string, query: string)
    requires '?' !in path && '#' !in path && (query == "" || query[0] == '?')
    ensures PathPart(path + query) == path
  {
    if path == "" {
      assert path + query == query;
    } else {
      assert path[0] in path && (path + query)[1..] == path[1..] + query;
      PathPartStops(path[1..], query);
    }
  }

  lemma {:induction false} PathPartCut(base: string, rest: string)
    requires '?' in base || '#' in base
    ensures |PathPart(base + rest)| < |base|
  {
    if base[0] != '?' && base[0] != '#' {
      assert base == [base[0]] + base[1..] && (base + rest)[1..] == base[1..] + rest;
      PathPartCut(base[1..], rest);
    }
  }

  lemma ControlAcross(a: string, b: string)
    ensures HasControl(a + b) <==> HasControl(a) || HasControl(b)
  {
    assert forall c :: c in a + b <==> c in a || c in b;
  }

  /** The query as `url.Values` encodes it. */
  ghost predicate EncodedQuery(query: string) {
    query == "" || (query[0] == '?' && '#' !in query && !HasControl(query))
  }

  lemma ParsedWhole(path: string, query: string)
    requires '?' !in path && '#' !in path && EncodedQuery(query)
    ensures ParsedPath(path + query) == if HasControl(path) then None else Decode(path)
  {
    var joined := path + query;
    var hash := IndexOf(joined, '#', 0);
    assert '#' !in joined;
    assert joined[..|joined|] == joined;
    ControlAcross(path, query);
    PathPartStops(path, query);
  }

  lemma ParsedCut(base: string, rest: string)
    requires '?' in base || '#' in base
    ensures ParsedPath(base + rest).Some? ==> |ParsedPath(base + rest).value| < |base|
  {
    PathPartCut(base, rest);
    if ParsedPath(base + rest).Some? { DecodeShortens(PathPart(base + rest)); }
  }

  lemma TraversesAcross(a: string, b: string)
    requires b != "" && b[0] == '/'
    ensures Traverses(a + b) <==> Traverses(a) || Traverses(b)
  {
    var s := a + b;
    if i: nat :| DotDotAt(s, i) {
      if i + 2 <= |a| {
        assert DotDotAt(a, i);
      } else if i >= |a| {
        assert DotDotAt(b, i - |a|);
      }
    }
    if i: nat :| DotDotAt(a, i) { assert DotDotAt(s, i); }
    if i: nat :| DotDotAt(b, i) { assert DotDotAt(s, |a| + i); }
  }

  // ---------------------------------------------------------------- when a bound path climbs

  /** A template's own bytes and its placeholders, one by one. */
  datatype Unit = Byte(c: char) | Gap(name: string)

  function Bytes(t: string): seq<Unit> {
    Map((c: char) => Byte(c), t)
  }

  function Units(ps: seq<Piece>): seq<Unit> {
    if ps == [] then []
    else (match ps[0] case Literal(t) => Bytes(t) case Hole(n) => [Gap(n)]) + Units(ps[1..])
  }

  function UnitText(u: Unit, raw: map<string, string>): string {
    match u
    case Byte(c) => [c]
    case Gap(n) => if n in raw then raw[n] else ""
  }

  function Expand(us: seq<Unit>, raw: map<string, string>): string {
    if us == [] then "" else UnitText(us[0], raw) + Expand(us[1..], raw)
  }

  lemma {:induction false} ExpandAppend(a: seq<Unit>, b: seq<Unit>, raw: map<string, string>)
    ensures Expand(a + b, raw) == Expand(a, raw) + Expand(b, raw)
  {
    if a == [] {
      assert a + b == b;
    } else {
      assert (a + b)[1..] == a[1..] + b;
      ExpandAppend(a[1..], b, raw);
    }
  }

  lemma {:induction false} ExpandBytes(t: string, raw: map<string, string>)
    ensures Expand(Bytes(t), raw) == t
  {
    if t != "" {
      assert Bytes(t)[1..] == Bytes(t[1..]);
      ExpandBytes(t[1..], raw);
    }
  }

  lemma {:induction false} FillExpands(ps: seq<Piece>, raw: map<string, string>)
    ensures Fill(ps, raw) == Expand(Units(ps), raw)
  {
    if ps != [] {
      FillExpands(ps[1..], raw);
      match ps[0]
      case Literal(t) =>
        ExpandAppend(Bytes(t), Units(ps[1..]), raw);
        ExpandBytes(t, raw);
      case Hole(n) => assert ([Gap(n)] + Units(ps[1..]))[1..] == Units(ps[1..]);
    }
  }

  /** A climbing segment stands at the front. */
  predicate DotsFirst(s: string) {
    |s| >= 2 && s[0] == '.' && s[1] == '.' && (|s| == 2 || s[2] == '/')
  }

  /** A climbing segment somewhere; `begins` says that the text begins a segment. */
  predicate Climbs(s: string, begins: bool) {
    (begins && DotsFirst(s)) || (s != "" && Climbs(s[1..], s[0] == '/'))
  }

  lemma {:induction false} ClimbsIsTraverses(s: string, i: nat)
    requires i <= |s|
    ensures Climbs(s[i..], i == 0 || s[i - 1] == '/') <==> TraversesFrom(s, i)
    decreases |s| - i
  {
    assert DotDotAt(s, i) <==> DotsFirst(s[i..]) && (i == 0 || s[i - 1] == '/');
    if i < |s| {
      ClimbsIsTraverses(s, i + 1);
      assert s[i..][1..] == s[i + 1..];
    }
    if DotDotAt(s, i) { assert i <= i; }
    if j: nat :| i <= j && DotDotAt(s, j) { assert j == i || i + 1 <= j; }
  }

  /** No separator and no two dots in a row, and not empty. */
  predicate OneSegmentText(v: string) {
    v != "" && '/' !in v && forall i :: 0 <= i < |v| - 1 ==> !(v[i] == '.' && v[i + 1] == '.')
  }

  ghost predicate GapsFit(us: seq<Unit>, raw: map<string, string>) {
    forall i :: 0 <= i < |us| && us[i].Gap? ==> us[i].name in raw && OneSegmentText(raw[us[i].name])
  }

  predicate DotUnit(u: Unit, raw: map<string, string>) {
    UnitText(u, raw) == "."
  }

  predicate DotUnitsFirst(us: seq<Unit>, raw: map<string, string>) {
    |us| >= 2 && DotUnit(us[0], raw) && DotUnit(us[1], raw) && (|us| == 2 || us[2] == Byte('/'))
  }

  predicate UnitsClimb(us: seq<Unit>, raw: map<string, string>, begins: bool) {
    (begins && DotUnitsFirst(us, raw)) || (us != [] && UnitsClimb(us[1..], raw, us[0] == Byte('/')))
  }

  lemma FrontUnit(us: seq<Unit>, raw: map<string, string>)
    requires us != [] && GapsFit(us, raw)
    ensures var t, s := UnitText(us[0], raw), Expand(us, raw);
      t != "" && s != "" && s[0] == t[0] && (s[0] == '/' <==> us[0] == Byte('/'))
      && GapsFit(us[1..], raw) && s[|t|..] == Expand(us[1..], raw)
      && (|t| > 1 ==> us[0].Gap? && s[1] == t[1] && s[1] != '/' && !(t[0] == '.' && t[1] == '.'))
  {
    var t := UnitText(us[0], raw);
    if us[0].Gap? {
      assert t[0] in t;
      if |t| > 1 { assert t[1] in t; }
    }
  }

  /** A climbing segment at the front is made of exactly two units, a dot each. */
  lemma DotsAreTwoUnits(us: seq<Unit>, raw: map<string, string>)
    requires GapsFit(us, raw)
    ensures DotsFirst(Expand(us, raw)) <==> DotUnitsFirst(us, raw)
  {
    var s := Expand(us, raw);
    if us != [] {
      FrontUnit(us, raw);
      if |us| > 1 {
        FrontUnit(us[1..], raw);
        assert us[1..][1..] == us[2..];
        if |us| > 2 { FrontUnit(us[2..], raw); }
      }
    }
  }

  lemma {:induction false} InsideSegment(v: string, rest: string)
    requires '/' !in v
    ensures Climbs(v + rest, false) <==> Climbs(rest, false)
  {
    if v == "" {
      assert v + rest == rest;
    } else {
      assert v[0] in v && (v + rest)[1..] == v[1..] + rest;
      InsideSegment(v[1..], rest);
    }
  }

  lemma {:induction false} ClimbsByUnits(us: seq<Unit>, raw: map<string, string>, begins: bool)
    requires GapsFit(us, raw)
    ensures Climbs(Expand(us, raw), begins) <==> UnitsClimb(us, raw, begins)
    decreases |us|
  {
    DotsAreTwoUnits(us, raw);
    if us != [] {
      var t, rest := UnitText(us[0], raw), Expand(us[1..], raw);
      FrontUnit(us, raw);
      ClimbsByUnits(us[1..], raw, us[0] == Byte('/'));
      assert (t + rest)[1..] == t[1..] + rest;
      if us[0].Gap? {
        InsideSegment(t[1..], rest);
      } else {
        assert t[1..] + rest == rest;
      }
    }
  }

  /** The two units from the i-th on are a whole segment. */
  predicate PairAt(us: seq<Unit>, i: nat) {
    i + 2 <= |us| && (i == 0 || us[i - 1] == Byte('/')) && (i + 2 == |us| || us[i + 2] == Byte('/'))
  }

  /** The segment there has two units, and both come to a dot. */
  predicate DotPairAt(us: seq<Unit>, raw: map<string, string>, i: nat) {
    PairAt(us, i) && DotUnit(us[i], raw) && DotUnit(us[i + 1], raw)
  }

  ghost predicate DotPairFrom(us: seq<Unit>, raw: map<string, string>, start: nat) {
    exists i: nat :: start <= i && DotPairAt(us, raw, i)
  }

  lemma {:induction false} UnitsClimbIff(us: seq<Unit>, raw: map<string, string>, i: nat)
    requires i <= |us|
    ensures UnitsClimb(us[i..], raw, i == 0 || us[i - 1] == Byte('/')) <==> DotPairFrom(us, raw, i)
    decreases |us| - i
  {
    assert DotPairAt(us, raw, i) <==> DotUnitsFirst(us[i..], raw) && (i == 0 || us[i - 1] == Byte('/'));
    if i < |us| {
      UnitsClimbIff(us, raw, i + 1);
      assert us[i..][1..] == us[i + 1..];
    }
    if DotPairAt(us, raw, i) { assert i <= i; }
    if j: nat :| i <= j && DotPairAt(us, raw, j) { assert j == i || i + 1 <= j; }
  }

  ghost predicate DotPair(ps: seq<Piece>, raw: map<string, string>) {
    DotPairFrom(Units(ps), raw, 0)
  }

  /** Every placeholder has an accepted value. */
  ghost predicate AllAccepted(ps: seq<Piece>, raw: map<string, string>, absolute: string -> bool) {
    forall i :: 0 <= i < |ps| && ps[i].Hole? ==> ps[i].name in raw && Accepted(raw[ps[i].name], absolute)
  }

  lemma {:induction false} NoDots(s: string, start: nat, i: nat)
    requires start <= i && i + 2 <= |s| && !FirstDots(s, start)
    ensures s[i] != '.' || s[i + 1] != '.'
    decreases i - start
  {
    if start < i {
      NoDots(s, start + 1, i);
    } else {
      assert s[i..i + 2] == [s[i], s[i + 1]];
    }
  }

  lemma AcceptedIsOneSegment(value: string, absolute: string -> bool)
    requires Accepted(value, absolute)
    ensures OneSegmentText(value)
  {
    forall i | 0 <= i < |value| - 1 ensures !(value[i] == '.' && value[i + 1] == '.') { NoDots(value, 0, i); }
  }

  lemma {:induction false} AcceptedFit(ps: seq<Piece>, raw: map<string, string>, absolute: string -> bool)
    requires AllAccepted(ps, raw, absolute)
    ensures GapsFit(Units(ps), raw)
  {
    if ps != [] {
      assert forall i :: 0 <= i < |ps| - 1 ==> ps[1..][i] == ps[i + 1];
      AcceptedFit(ps[1..], raw, absolute);
      if ps[0].Hole? { AcceptedIsOneSegment(raw[ps[0].name], absolute); }
    }
  }

  /** With accepted values a bound path climbs exactly when some segment of the template is
      two units long and each of the two, a dot or a placeholder, comes to a dot. */
  lemma TraversesIffDotPair(ps: seq<Piece>, raw: map<string, string>, absolute: string -> bool)
    requires AllAccepted(ps, raw, absolute)
    ensures Traverses(Fill(ps, raw)) <==> DotPair(ps, raw)
  {
    var us, s := Units(ps), Fill(ps, raw);
    AcceptedFit(ps, raw, absolute);
    FillExpands(ps, raw);
    ClimbsByUnits(us, raw, true);
    ClimbsIsTraverses(s, 0);
    UnitsClimbIff(us, raw, 0);
    assert s[0..] == s && us[0..] == us;
  }

  /** Some segment of the template is "..", ".{x}", "{x}." or "{x}{y}". */
  ghost predicate Climbable(ps: seq<Piece>) {
    exists i: nat :: PairAt(Units(ps), i) && Dottable(Units(ps)[i]) && Dottable(Units(ps)[i + 1])
  }

  predicate Dottable(u: Unit) {
    u.Gap? || u == Byte('.')
  }

  lemma DotPairClimbs(ps: seq<Piece>, raw: map<string, string>)
    ensures DotPair(ps, raw) ==> Climbable(ps)
  {
    if i: nat :| 0 <= i && DotPairAt(Units(ps), raw, i) {
      assert PairAt(Units(ps), i) && Dottable(Units(ps)[i]) && Dottable(Units(ps)[i + 1]);
    }
  }

  function AllDots(ps: seq<Piece>): map<string, string> {
    map i | 0 <= i < |ps| && ps[i].Hole? :: ps[i].name := "."
  }

  lemma {:induction false} DotsFit(ps: seq<Piece>, raw: map<string, string>)
    requires forall i :: 0 <= i < |ps| && ps[i].Hole? ==> ps[i].name in raw && raw[ps[i].name] == "."
    ensures forall i :: 0 <= i < |Units(ps)| && Units(ps)[i].Gap? ==> DotUnit(Units(ps)[i], raw)
  {
    if ps != [] {
      assert forall i :: 0 <= i < |ps| - 1 ==> ps[1..][i] == ps[i + 1];
      DotsFit(ps[1..], raw);
    }
  }

  lemma AllDotsAccepted(ps: seq<Piece>, absolute: string -> bool)
    requires !absolute(".")
    ensures AllAccepted(ps, AllDots(ps), absolute)
  {
    assert Accepted(".", absolute);
  }

  lemma AllDotsClimb(ps: seq<Piece>)
    requires Climbable(ps)
    ensures DotPair(ps, AllDots(ps))
  {
    var us, raw := Units(ps), AllDots(ps);
    assert forall i :: 0 <= i < |us| && us[i].Gap? ==> DotUnit(us[i], raw) by { DotsFit(ps, raw); }
    var i: nat :| PairAt(us, i) && Dottable(us[i]) && Dottable(us[i + 1]);
    assert DotUnit(us[i], raw) && DotUnit(us[i + 1], raw);
    assert DotPairAt(us, raw, i);
  }

  /** Exactly the templates with such a segment can be made to climb by accepted values. A lone
      dot is no absolute URL. */
  lemma CanTraverseIff(ps: seq<Piece>, absolute: string -> bool)
    requires !absolute(".")
    ensures (exists raw :: AllAccepted(ps, raw, absolute) && Traverses(Fill(ps, raw))) <==> Climbable(ps)
  {
    if raw :| AllAccepted(ps, raw, absolute) && Traverses(Fill(ps, raw)) {
      TraversesIffDotPair(ps, raw, absolute);
      DotPairClimbs(ps, raw);
    }
    if Climbable(ps) {
      AllDotsAccepted(ps, absolute);
      AllDotsClimb(ps);
      TraversesIffDotPair(ps, AllDots(ps), absolute);
    }
  }

  // ---------------------------------------------------------------- every call

  lemma {:induction false} FillHasNo(ps: seq<Piece>, raw: map<string, string>, c: char)
    requires Validated(ps, raw) && c in "?#" && forall n :: n in raw ==> ByteText(raw[n])
    requires forall i :: 0 <= i < |ps| && ps[i].Literal? ==> c !in ps[i].text
    ensures c !in Fill(ps, Escaped(raw))
  {
    if ps != [] {
      FillHasNo(ps[1..], raw, c);
      if ps[0].Hole? && c in PathEscape(raw[ps[0].name]) {
        EscapeIsInert(raw[ps[0].name], c);
      }
    }
  }

  ghost predicate ControlFree(ps: seq<Piece>) {
    forall i :: 0 <= i < |ps| && ps[i].Literal? ==> !HasControl(ps[i].text)
  }

  lemma ControlFreeFirst(ps: seq<Piece>)
    requires ps != []
    ensures ControlFree(ps) <==> (ps[0].Literal? ==> !HasControl(ps[0].text)) && ControlFree(ps[1..])
  {
    assert forall i :: 0 <= i < |ps| - 1 ==> ps[1..][i] == ps[i + 1];
    if ControlFree(ps[1..]) {
      assert forall i :: 0 < i < |ps| ==> ps[i] == ps[1..][i - 1];
    }
  }

  /** A bound path has a control character exactly when the template's own text has one. */
  lemma {:induction false} FillControl(ps: seq<Piece>, raw: map<string, string>)
    requires Validated(ps, raw) && forall n :: n in raw ==> ByteText(raw[n])
    ensures HasControl(Fill(ps, Escaped(raw))) <==> !ControlFree(ps)
  {
    if ps != [] {
      var rest := Fill(ps[1..], Escaped(raw));
      FillControl(ps[1..], raw);
      ControlFreeFirst(ps);
      match ps[0]
      case Literal(t) => ControlAcross(t, rest);
      case Hole(n) =>
        ControlAcross(PathEscape(raw[n]), rest);
        if c :| c in PathEscape(raw[n]) && Control(c) { EscapeIsInert(raw[n], c); }
    }
  }

  /** Neither query nor fragment in the template, as recipe validation asks. */
  ghost predicate PathOnly(ps: seq<Piece>) {
    forall i :: 0 <= i < |ps| && ps[i].Literal? ==> '?' !in ps[i].text && '#' !in ps[i].text
  }

  /** What makes the parser read base path and template back as one path. */
  ghost predicate OnePath(base: string, ps: seq<Piece>) {
    '?' !in base && '#' !in base && !HasControl(base) && ControlFree(ps)
  }

  lemma JoinedParses(base: string, ps: seq<Piece>, raw: map<string, string>, query: string)
    requires Validated(ps, raw) && PathOnly(ps) && EncodedQuery(query) && forall n :: n in raw ==> ByteText(raw[n])
    ensures var bound := Fill(ps, Escaped(raw));
      var path := ParsedPath(base + bound + query);
      if OnePath(base, ps) then path == Decode(base + bound) else path.Some? ==> |path.value| < |base|
  {
    var bound := Fill(ps, Escaped(raw));
    if '?' in base || '#' in base {
      Regroup(base, bound, query);
      ParsedCut(base, bound + query);
    } else {
      FillHasNo(ps, raw, '?');
      FillHasNo(ps, raw, '#');
      FillControl(ps, raw);
      ControlAcross(base, bound);
      ParsedWhole(base + bound, query);
    }
  }

  /** Text without escapes, without the characters that end a path and without control
      characters. */
  ghost predicate CleanText(t: string) {
    '%' !in t && '?' !in t && '#' !in t && !HasControl(t)
  }

  /** When neither the base path nor the template has a percent sign, accepted values keep the
      decoded path what the template says and below its root, and the pin's last check fails
      exactly on a pair of dots. */
  lemma AcceptedValuesStayPinned(base: string, ps: seq<Piece>, raw: map<string, string>, query: string,
                                 absolute: string -> bool)
    requires Validated(ps, raw) && CleanText(base) && !Traverses(base) && EncodedQuery(query)
    requires ps != [] && ps[0].Literal? && ps[0].text[0] == '/'
    requires forall i :: 0 <= i < |ps| && ps[i].Literal? ==> CleanText(ps[i].text)
    requires forall n :: n in raw ==> ByteText(raw[n]) && Accepted(raw[n], absolute)
    ensures var path := ParsedPath(base + Fill(ps, Escaped(raw)) + query);
      path == Some(base + Fill(ps, raw)) && base + LiteralTemplatePrefix(Render(ps)) <= path.value
      && (Traverses(path.value) <==> DotPair(ps, raw))
  {
    JoinedParses(base, ps, raw, query);
    PlainDecodes(base);
    BoundPathDecodes(ps, raw);
    DecodeAppend(base, Fill(ps, Escaped(raw)));
    PrefixSurvives(ps, raw);
    TraversesIffDotPair(ps, raw, absolute);
    TraversesAcross(base, Fill(ps, raw));
  }

  // ---------------------------------------------------------------- escapes in the root

  lemma {:induction false} DecodeBehind(a: string, b: string)
    requires Decode(a).Some? && Decode(a + b).Some?
    ensures Decode(b).Some? && Decode(a + b).value == Decode(a).value + Decode(b).value
  {
    if a == "" {
      assert a + b == b && Decode(a).value + Decode(b).value == Decode(b).value;
    } else {
      var n := if a[0] == '%' then 3 else 1;
      assert (a + b)[n..] == a[n..] + b;
      assert (a + b)[0] == a[0] && (n == 3 ==> (a + b)[1] == a[1] && (a + b)[2] == a[2]);
      DecodeBehind(a[n..], b);
      DecodeAppend(a, b);
    }
  }

  lemma BeginsAcross(root: string, d: string, behind: string)
    requires |d| <= |root|
    ensures root <= d + behind <==> d <= root && root[|d|..] <= behind
  {
    var n := |d|;
    if root <= d + behind {
      assert root[..n] == (d + behind)[..n] == d;
      assert root[n..] == (d + behind)[n..|root|] == behind[..|root| - n];
    }
    if d <= root && root[n..] <= behind {
      assert root == d + root[n..];
      assert (d + behind)[..|root|] == d + behind[..|root| - n];
    }
  }

  /** The root is compared as it is written with a path that has been decoded. For any part of
      it that decodes by itself: the root begins the decoded path exactly when that part decodes
      to a beginning of the root, and what comes behind it begins with the rest of the root. */
  lemma RootCheckIff(root: string, head: string, joined: string)
    requires head <= root <= joined && Decode(head).Some? && Decode(joined).Some?
    ensures var d, behind := Decode(head).value, Decode(joined[|head|..]);
      |d| <= |root| && behind.Some?
      && (root <= Decode(joined).value <==> d <= root && root[|d|..] <= behind.value)
  {
    DecodeShortens(head);
    assert joined == head + joined[|head|..];
    DecodeBehind(head, joined[|head|..]);
    BeginsAcross(root, Decode(head).value, Decode(joined[|head|..]).value);
  }

  lemma EncodedPercent(a: char, b: char)
    requires HexValue(a).Some? && HexValue(b).Some?
    ensures (16 * HexValue(a).value + HexValue(b).value) as char == '%' <==> a == '2' && b == '5'
  {
  }

  lemma FirstEscaped(rest: string)
    requires rest != "" && rest[0] == '%' && Decode(rest).Some?
    ensures |rest| >= 3 && (Decode(rest).value[0] == '%' <==> rest[1] == '2' && rest[2] == '5')
  {
    EncodedPercent(rest[1], rest[2]);
  }

  /** So a root whose first percent sign does not begin "%25" begins no decoded path, whatever
      follows it. */
  lemma FirstEscapeDecides(root: string, joined: string, p: nat)
    requires root <= joined && Decode(joined).Some?
    requires p < |root| && root[p] == '%' && '%' !in root[..p] && root <= Decode(joined).value
    ensures |joined| >= p + 3 && joined[p + 1] == '2' && joined[p + 2] == '5'
  {
    var head, rest := root[..p], joined[p..];
    PlainDecodes(head);
    assert joined == head + rest && rest[0] == '%';
    DecodeBehind(head, rest);
    FirstEscaped(rest);
    assert Decode(joined).value[p] == Decode(rest).value[0];
  }

  /** The joined text is parsed, and the decoded path begins with the root. */
  ghost predicate RootPasses(base: string, ps: seq<Piece>, raw: map<string, string>, query: string) {
    var path := ParsedPath(base + Fill(ps, Escaped(raw)) + query);
    path.Some? && base + LiteralTemplatePrefix(Render(ps)) <= path.value
  }

  /** A root without escapes fails the check exactly when base path and template are not read
      back as one path, whatever the values, or what is bound behind it does not decode. */
  lemma PlainRootPassesIff(base: string, ps: seq<Piece>, raw: map<string, string>, query: string)
    requires Validated(ps, raw) && PathOnly(ps) && EncodedQuery(query) && forall n :: n in raw ==> ByteText(raw[n])
    requires '%' !in base + LiteralTemplatePrefix(Render(ps))
    ensures RootPasses(base, ps, raw, query) <==> OnePath(base, ps) && Decode(base + Fill(ps, Escaped(raw))).Some?
  {
    var root, joined := base + LiteralTemplatePrefix(Render(ps)), base + Fill(ps, Escaped(raw));
    JoinedParses(base, ps, raw, query);
    if OnePath(base, ps) && Decode(joined).Some? {
      PrefixSurvives(ps, Escaped(raw));
      PlainDecodes(root);
      RootCheckIff(root, root, joined);
    }
  }

  lemma RootBeforeHole(t: string, ps: seq<Piece>)
    requires '{' !in t && (ps == [] || ps[0].Hole?)
    ensures LiteralTemplatePrefix(Render([Literal(t)] + ps)) == t
  {
    assert ([Literal(t)] + ps)[1..] == ps;
    PrefixBehind(t, Render(ps));
    if ps != [] {
      assert Render(ps)[0] == '{';
      FirstAt(Render(ps), '{', 0, 0);
    }
    assert t + "" == t;
  }

  lemma FillBehind(t: string, ps: seq<Piece>, values: map<string, string>)
    ensures Fill([Literal(t)] + ps, values) == t + Fill(ps, values)
  {
    assert ([Literal(t)] + ps)[1..] == ps;
  }

  lemma ValidatedBehind(p: Piece, ps: seq<Piece>, values: map<string, string>)
    requires Validated([p] + ps, values)
    ensures Validated([p], values) && Validated(ps, values)
  {
    assert forall i :: 0 <= i < |ps| ==> ps[i] == ([p] + ps)[i + 1];
    assert ([p] + ps)[0] == p;
  }

  /** For every template whose root decodes: the root check passes exactly when base path and
      template are read back as one path, the root's decoded text begins the root, and what is
      bound behind the root decodes to a text that begins with the bytes of the root that are
      left. Without an escape behind the root that text is the values with what is between them. */
  lemma EscapedRootPassesIff(base: string, t: string, ps: seq<Piece>, raw: map<string, string>, query: string)
    requires Validated([Literal(t)] + ps, raw) && PathOnly([Literal(t)] + ps) && (ps == [] || ps[0].Hole?)
    requires EncodedQuery(query) && Decode(base + t).Some? && forall n :: n in raw ==> ByteText(raw[n])
    ensures var root, d, behind := base + t, Decode(base + t).value, Decode(Fill(ps, Escaped(raw)));
      |d| <= |root| && (PlainLiterals(ps) ==> behind == Some(Fill(ps, raw)))
      && (RootPasses(base, [Literal(t)] + ps, raw, query)
          <==> OnePath(base, [Literal(t)] + ps) && d <= root && behind.Some? && root[|d|..] <= behind.value)
  {
    var root, filled := base + t, Fill(ps, Escaped(raw));
    ValidatedBehind(Literal(t), ps, raw);
    assert [Literal(t)][0] == Literal(t);
    if PlainLiterals(ps) { BoundPathDecodes(ps, raw); }
    DecodeShortens(root);
    JoinedParses(base, [Literal(t)] + ps, raw, query);
    FillBehind(t, ps, Escaped(raw));
    Regroup(base, t, filled);
    RootBeforeHole(t, ps);
    if Decode(filled).Some? {
      DecodeAppend(root, filled);
      assert (root + filled)[|root|..] == filled;
      RootCheckIff(root, root, root + filled);
    } else if Decode(root + filled).Some? {
      DecodeBehind(root, filled);
    }
  }

  lemma EscapedEnd(t: string, c: char)
    requires c as int < 256 && !Plain(c) && t == "/" + EscapeByte(c)
    ensures Decode(t) == Some(['/', c])
  {
    PlainDecodes("/");
    ByteRoundTrip(c);
    DecodeAppend("/", EscapeByte(c));
    assert "/" + [c] == ['/', c];
  }

  lemma OneHole(value: string)
    ensures Fill([Hole("x")], map["x" := value]) == value
  {
    assert [Hole("x")][1..] == [] && value + "" == value;
  }

  lemma TwoBytesBegin(t: string, c: char)
    requires |t| >= 2 && t[0] == '/'
    ensures ['/', c] <= t <==> c == t[1]
  {
    assert t[..2] == ['/', t[1]];
  }

  lemma OneEscapeTemplate(t: string, c: char, ps: seq<Piece>, raw: map<string, string>)
    requires c as int < 256 && t == "/" + EscapeByte(c) && ps == [Literal(t)] + [Hole("x")] && "x" in raw
    ensures Validated(ps, raw) && PathOnly(ps) && OnePath("", ps)
  {
    forall b | b in t ensures b !in "?#{}" && !Control(b) {
      if b in EscapeByte(c) { EscapeByteIsInert(c, b); }
    }
    assert ps[0] == Literal(t) && ps[1] == Hole("x");
  }

  /** Roots with one escape, at their end: an escaped percent sign refuses every value that
      does not begin with its two digits, any other escape refuses every value. */
  lemma OneEscapeRoot(t: string, c: char, value: string, query: string)
    requires ByteText(value) && c as int < 256 && !Plain(c) && t == "/" + EscapeByte(c) && EncodedQuery(query)
    ensures RootPasses("", [Literal(t)] + [Hole("x")], map["x" := value], query) <==> c == '%' && t[2..] <= value
  {
    var raw, hole := map["x" := value], [Hole("x")];
    OneHole(value);
    EscapedEnd(t, c);
    assert "" + t == t;
    OneEscapeTemplate(t, c, [Literal(t)] + hole, raw);
    assert hole[0] == Hole("x");
    EscapedRootPassesIff("", t, hole, raw, query);
    TwoBytesBegin(t, c);
  }

  // ---------------------------------------------------------------- binding a call's arguments

  datatype Kind = TextParam | NumberParam | BooleanParam

  datatype Param = Param(name: string, inPath: bool, required: bool, kind: Kind)

  /** A JSON argument; numbers and booleans come with the text they format to. */
  datatype Arg = Null | TextArg(text: string) | NumberArg(text: string) | BooleanArg(text: string) | OtherArg

  datatype BindError = Missing(name: string) | WrongType(name: string) | Refused(name: string)

  datatype Bound = Bound(path: map<string, string>, query: map<string, string>)

  /** What a call is sent to: the bound path and the query values. */
  datatype Target = Target(path: string, query: map<string, string>)

  function Coerced(kind: Kind, arg: Arg): Option<string> {
    match (kind, arg)
    case (TextParam, TextArg(t)) => Some(t)
    case (NumberParam, NumberArg(t)) => Some(t)
    case (BooleanParam, BooleanArg(t)) => Some(t)
    case _ => None
  }

  /** One parameter's raw value added to what is bound already. */
  function BindOne(p: Param, args: map<string, Arg>, absolute: string -> bool, b: Bound): Result<Bound, BindError> {
    if p.name !in args || args[p.name].Null? then (if p.required then Err(Missing(p.name)) else Ok(b))
    else
      match Coerced(p.kind, args[p.name])
      case None => Err(WrongType(p.name))
      case Some(value) =>
        if !p.inPath then Ok(b.(query := b.query[p.name := value]))
        else if Accepted(value, absolute) then Ok(b.(path := b.path[p.name := value]))
        else Err(Refused(p.name))
  }

  function BindAll(params: seq<Param>, args: map<string, Arg>, absolute: string -> bool, b: Bound)
      : Result<Bound, BindError>
    decreases |params|
  {
    if params == [] then Ok(b)
    else
      match BindOne(params[0], args, absolute, b)
      case Err(e) => Err(e)
      case Ok(next) => BindAll(params[1..], args, absolute, next)
  }

  // What a call asks for, told without the loop.

  predicate Given(p: Param, args: map<string, Arg>) {
    p.name in args && args[p.name] != Null
  }

  /** The argument has the parameter's kind. */
  predicate Fits(kind: Kind, arg: Arg) {
    (kind.TextParam? && arg.TextArg?) || (kind.NumberParam? && arg.NumberArg?)
    || (kind.BooleanParam? && arg.BooleanArg?)
  }

  /** The text given for a parameter that is given as its kind asks. */
  function TextGiven(p: Param, args: map<string, Arg>): string
    requires Given(p, args) && Fits(p.kind, args[p.name])
  {
    args[p.name].text
  }

  /** One path segment and no URL: not empty, no separator of either kind, no two dots in a
      row. */
  ghost predicate SegmentValue(v: string, absolute: string -> bool) {
    |v| > 0 && !absolute(v) && (forall i :: 0 <= i < |v| ==> v[i] != '/' && v[i] != '\\')
    && forall i :: 0 <= i < |v| - 1 ==> v[i] != '.' || v[i + 1] != '.'
  }

  /** Why a parameter makes the call fail, if it does. */
  ghost predicate Offends(p: Param, args: map<string, Arg>, absolute: string -> bool, e: BindError) {
    match e
    case Missing(name) => name == p.name && p.required && !Given(p, args)
    case WrongType(name) => name == p.name && Given(p, args) && !Fits(p.kind, args[p.name])
    case Refused(name) =>
      name == p.name && Given(p, args) && Fits(p.kind, args[p.name]) && p.inPath
      && !SegmentValue(TextGiven(p, args), absolute)
  }

  ghost predicate Sound(p: Param, args: map<string, Arg>, absolute: string -> bool) {
    forall e :: !Offends(p, args, absolute, e)
  }

  /** The values are the texts given for the parameters of one place, under their names. */
  ghost predicate Collects(values: map<string, string>, params: seq<Param>, args: map<string, Arg>, inPath: bool) {
    (forall n :: n in values <==> exists p :: p in params && p.name == n && p.inPath == inPath && Given(p, args))
    && forall p :: p in params && p.inPath == inPath && Given(p, args) ==>
      p.name in values && Fits(p.kind, args[p.name]) && values[p.name] == TextGiven(p, args)
  }

  ghost predicate DistinctNames(params: seq<Param>) {
    forall i, j :: 0 <= i < j < |params| ==> params[i].name != params[j].name
  }

  /** A call binds exactly when no parameter offends: then path and query values are the texts
      given. Otherwise the first parameter that offends decides the error. */
  ghost predicate Binds(r: Result<Bound, BindError>, params: seq<Param>, args: map<string, Arg>,
                        absolute: string -> bool) {
    match r
    case Ok(b) =>
      (forall p :: p in params ==> Sound(p, args, absolute))
      && Collects(b.path, params, args, true) && Collects(b.query, params, args, false)
    case Err(e) =>
      exists i :: 0 <= i < |params| && Offends(params[i], args, absolute, e)
                  && forall j :: 0 <= j < i ==> Sound(params[j], args, absolute)
  }

  lemma {:induction false} TwoDots(v: string, i: nat)
    requires i <= |v| && FirstDots(v, i)
    ensures exists j :: i <= j < |v| - 1 && v[j] == '.' && v[j + 1] == '.'
    decreases |v| - i
  {
    if v[i..i + 2] == ".." {
      assert v[i..i + 2][0] == v[i] && v[i..i + 2][1] == v[i + 1];
    } else {
      TwoDots(v, i + 1);
    }
  }

  lemma AcceptedIff(v: string, absolute: string -> bool)
    ensures Accepted(v, absolute) <==> SegmentValue(v, absolute)
  {
    if Accepted(v, absolute) { AcceptedIsOneSegment(v, absolute); }
    if FirstDots(v, 0) { TwoDots(v, 0); }
  }

  /** What one parameter does: it fails the call exactly when it offends, and else adds its text
      to the values of its place, if it is given. */
  lemma OneBinds(p: Param, args: map<string, Arg>, absolute: string -> bool, b: Bound)
    ensures match BindOne(p, args, absolute, b)
            case Err(e) => Offends(p, args, absolute, e)
            case Ok(next) =>
              Sound(p, args, absolute)
              && if !Given(p, args) then next == b
                 else Fits(p.kind, args[p.name])
                      && next == if p.inPath then b.(path := b.path[p.name := TextGiven(p, args)])
                                 else b.(query := b.query[p.name := TextGiven(p, args)])
  {
    if Given(p, args) && Fits(p.kind, args[p.name]) { AcceptedIff(TextGiven(p, args), absolute); }
  }

  lemma CollectsOneMore(values: map<string, string>, values': map<string, string>, params: seq<Param>, p: Param,
                        args: map<string, Arg>, inPath: bool)
    requires Collects(values, params, args, inPath)
    requires forall q :: q in params ==> q.name != p.name
    requires Given(p, args) ==> Fits(p.kind, args[p.name])
    requires values' == if p.inPath == inPath && Given(p, args) then values[p.name := TextGiven(p, args)] else values
    ensures Collects(values', params + [p], args, inPath)
  {
    forall n
      ensures n in values' <==> exists q :: q in params + [p] && q.name == n && q.inPath == inPath && Given(q, args)
    {
      if q :| q in params && q.name == n && q.inPath == inPath && Given(q, args) { assert q in params + [p]; }
      if p.inPath == inPath && Given(p, args) && p.name == n { assert p in params + [p]; }
    }
  }

  lemma {:induction false} AllBind(before: seq<Param>, rest: seq<Param>, args: map<string, Arg>,
                                   absolute: string -> bool, b: Bound)
    requires DistinctNames(before + rest) && Binds(Ok(b), before, args, absolute)
    ensures Binds(BindAll(rest, args, absolute, b), before + rest, args, absolute)
    decreases |rest|
  {
    if rest == [] {
      assert before + rest == before;
    } else {
      var p, all := rest[0], before + rest;
      assert all == (before + [p]) + rest[1..] && all[|before|] == p;
      assert forall i :: 0 <= i < |before| ==> all[i] == before[i] && before[i] in before;
      OneBinds(p, args, absolute, b);
      match BindOne(p, args, absolute, b)
      case Err(e) =>
        assert Offends(all[|before|], args, absolute, e);
      case Ok(next) =>
        CollectsOneMore(b.path, next.path, before, p, args, true);
        CollectsOneMore(b.query, next.query, before, p, args, false);
        AllBind(before + [p], rest[1..], args, absolute, next);
    }
  }

  /** For parameters with distinct names, as recipe validation asks: the call's outcome is what
      its arguments say. */
  lemma BindAllIs(params: seq<Param>, args: map<string, Arg>, absolute: string -> bool)
    requires DistinctNames(params)
    ensures Binds(BindAll(params, args, absolute, Bound(map[], map[])), params, args, absolute)
  {
    assert [] + params == params;
    AllBind([], params, args, absolute, Bound(map[], map[]));
  }

  /** What the call is sent to: the template with the given path texts escaped, and the given
      query texts; or the error of the first parameter that offends. */
  ghost predicate IsTarget(r: Result<Target, BindError>, template: string, params: seq<Param>, args: map<string, Arg>,
                           absolute: string -> bool) {
    match r
    case Ok(t) =>
      exists path ::
        Binds(Ok(Bound(path, t.query)), params, args, absolute) && t.path == BindFrom(template, Escaped(path), 0)
    case Err(e) => Binds(Err(e), params, args, absolute)
  }

  method Bind(template: string, params: seq<Param>, args: map<string, Arg>, absolute: string -> bool)
      returns (r: Result<Target, BindError>)
    ensures var all := BindAll(params, args, absolute, Bound(map[], map[]));
      r == if all.Err? then Err(all.error)
           else Ok(Target(BindFrom(template, Escaped(all.value.path), 0), all.value.query))
    ensures DistinctNames(params) ==> IsTarget(r, template, params, args, absolute)
  {
    if DistinctNames(params) { BindAllIs(params, args, absolute); }
    var pathValues, query: map<string, string> := map[], map[];
    ghost var b := Bound(map[], map[]);
    for i := 0 to |params|
      invariant pathValues == Escaped(b.path) && query == b.query
      invariant BindAll(params[i..], args, absolute, b) == BindAll(params, args, absolute, Bound(map[], map[]))
    {
      var p := params[i];
      assert params[i..][0] == p && params[i..][1..] == params[i + 1..];
      if p.name !in args || args[p.name].Null? {
        if p.required {
          return Err(Missing(p.name));
        }
        continue;
      }
      var value := Coerced(p.kind, args[p.name]);
      if value.None? {
        return Err(WrongType(p.name));
      }
      if p.inPath {
        if !Accepted(value.value, absolute) {
          return Err(Refused(p.name));
        }
        pathValues := pathValues[p.name := PathEscape(value.value)];
        b := b.(path := b.path[p.name := value.value]);
      } else {
        query := query[p.name := value.value];
        b := b.(query := b.query[p.name := value.value]);
      }
    }
    assert params[|params|..] == [];
    var path := BindPathTemplate(template, pathValues);
    r := Ok(Target(path, query));
  }

  ghost predicate BytesGiven(args: map<string, Arg>) {
    forall n :: n in args ==> !args[n].Null? && !args[n].OtherArg? ==> ByteText(args[n].text)
  }

  ghost predicate Good(path: map<string, string>, absolute: string -> bool) {
    forall n :: n in path ==> Accepted(path[n], absolute) && ByteText(path[n])
  }

  /** A call that binds has an accepted value for every required path parameter, and no
      others. */
  lemma {:induction false} BoundIsAccepted(params: seq<Param>, args: map<string, Arg>, absolute: string -> bool,
                                           b: Bound)
    requires BindAll(params, args, absolute, b).Ok? && Good(b.path, absolute) && BytesGiven(args)
    ensures var r := BindAll(params, args, absolute, b).value;
      Good(r.path, absolute)
      && (forall n :: n in b.path ==> n in r.path)
      && (forall p :: p in params && p.inPath && p.required ==> p.name in r.path)
    decreases |params|
  {
    if params != [] {
      var next := BindOne(params[0], args, absolute, b).value;
      BoundIsAccepted(params[1..], args, absolute, next);
      assert params == [params[0]] + params[1..];
    }
  }

  /** A verb as recipe validation accepts it, further without percent signs and control
      characters and without a segment that values could make climb. */
  ghost predicate CleanVerb(ps: seq<Piece>, params: seq<Param>) {
    !Climbable(ps) && ps != [] && ps[0].Literal? && ps[0].text != "" && ps[0].text[0] == '/'
    && forall i :: 0 <= i < |ps| ==>
      match ps[i]
      case Literal(t) => t != "" && '{' !in t && '}' !in t && CleanText(t)
      case Hole(n) => NameText(n) && exists p :: p in params && p.name == n && p.inPath && p.required
  }

  /** For every argument set a clean verb accepts, the URL's decoded path is the base path
      followed by the template with the values filled in; it keeps the template's separators,
      starts with the pinned root and climbs nowhere. */
  lemma EveryBoundCallStaysPinned(base: string, ps: seq<Piece>, params: seq<Param>, args: map<string, Arg>,
                                  query: string, absolute: string -> bool)
    requires CleanVerb(ps, params) && CleanText(base) && !Traverses(base) && BytesGiven(args)
    requires EncodedQuery(query)
    requires BindAll(params, args, absolute, Bound(map[], map[])).Ok?
    ensures var raw := BindAll(params, args, absolute, Bound(map[], map[])).value.path;
      var bound := BindFrom(Render(ps), Escaped(raw), 0);
      var path := ParsedPath(base + bound + query);
      path == Some(base + Fill(ps, raw)) && Count(bound, '/') == Count(Render(ps), '/')
      && base + LiteralTemplatePrefix(Render(ps)) <= path.value && !Traverses(path.value)
  {
    var start := Bound(map[], map[]);
    var raw := BindAll(params, args, absolute, start).value.path;
    BoundIsAccepted(params, args, absolute, start);
    assert Validated(ps, raw) && Validated(ps, Escaped(raw));
    BindFills("", ps, Escaped(raw));
    assert "" + Render(ps) == Render(ps);
    BindingKeepsSeparators(ps, raw);
    AcceptedValuesStayPinned(base, ps, raw, query, absolute);
    DotPairClimbs(ps, raw);
  }

  // ---------------------------------------------------------------- the capped response

  /** What the reader delivers: chunks, each with whether it came with the end of the stream. */
  function Delivered(chunks: seq<(string, bool)>): string {
    if chunks == [] then "" else chunks[0].0 + if chunks[0].1 then "" else Delivered(chunks[1..])
  }

  /** The first `cap` bytes of the body, and whether there were more. */
  method ReadCappedBody(chunks: seq<(string, bool)>, cap: nat) returns (body: string, truncated: bool)
    ensures truncated <==> |Delivered(chunks)| > cap
    ensures body == if truncated then Delivered(chunks)[..cap] else Delivered(chunks)
  {
    body, truncated := "", false;
    for i := 0 to |chunks|
      invariant |body| <= cap && !truncated && Delivered(chunks) == body + Delivered(chunks[i..])
    {
      var (chunk, end) := chunks[i];
      assert chunks[i..][1..] == chunks[i + 1..];
      ghost var rest := if end then "" else Delivered(chunks[i + 1..]);
      Regroup(body, chunk, rest);
      if |body| + |chunk| > cap {
        assert (body + chunk + rest)[..cap] == body + chunk[..cap - |body|];
        body := body + chunk[..cap - |body|];
        truncated := true;
        return;
      }
      body := body + chunk;
      if end {
        return;
      }
    }
    assert chunks[|chunks|..] == [];
  }
}
