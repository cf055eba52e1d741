/** The reference-document manifest: one entry per visible document under a byte budget, where
    an entry that no longer fits is collapsed but never dropped. Text is UTF-8 bytes. */
module ReferenceManifest {
  import opened Sequences

  newtype Byte = x: int | 0 <= x < 256

  type Bytes = seq<Byte>

  /** `description` is trimmed; `pages` is the rendered page count, empty when there is none. */
  datatype Doc = Doc(name: Bytes, description: Bytes, pages: Bytes, toc: seq<Bytes>)

  const NEWLINE: Byte := 10
  const BULLET: Bytes := [45, 32] // "- "
  const DASH: Bytes := [32, 0xE2, 0x80, 0x94, 32] // " — "
  const ELLIPSIS: Bytes := [0xE2, 0x80, 0xA6] // "…"
  const TOC_LABEL: Bytes := [84, 79, 67, 58, 32] // "TOC: "
  const SEMICOLON: Bytes := [59, 32] // "; "

  function Joined(parts: seq<Bytes>, separator: Bytes): Bytes {
    if parts == [] then []
    else if |parts| == 1 then parts[0]
    else parts[0] + separator + Joined(parts[1..], separator)
  }

  function NonEmpty(part: Bytes): seq<Bytes> {
    if part == [] then [] else [part]
  }

  function TocSegment(doc: Doc): Bytes {
    if doc.toc == [] then [] else TOC_LABEL + Joined(doc.toc, SEMICOLON)
  }

  function FullEntry(doc: Doc): Bytes {
    BULLET
    + Joined([doc.name] + NonEmpty(doc.description) + NonEmpty(doc.pages) + NonEmpty(TocSegment(doc)), DASH)
  }

  // ---------------------------------------------------------------- cutting text

  predicate Continuation(b: Byte) {
    0x80 <= b < 0xC0
  }

  /** The longest of s[..n], s[..n-1], ... that does not end inside a character. */
  method TruncateRuneSafe(s: Bytes, n: nat) returns (r: Bytes)
    ensures r == s[..Cut(s, n)]
  {
    if n >= |s| {
      assert s[..|s|] == s;
      return s;
    }
    var m: nat := n;
    while m > 0 && Continuation(s[m])
      invariant m <= n && Cut(s, m) == Cut(s, n)
    {
      m := m - 1;
    }
    r := s[..m];
  }

  function Cut(s: Bytes, n: nat): (m: nat)
    ensures m <= n && m <= |s|
    ensures m == |s| || m == 0 || !Continuation(s[m])
    ensures forall k :: m < k <= n && k < |s| ==> Continuation(s[k])
    ensures n >= |s| ==> m == |s|
  {
    if n >= |s| then |s| else if n > 0 && Continuation(s[n]) then Cut(s, n - 1) else n
  }

  /** The length a lead byte announces, 0 for a byte that cannot lead. */
  function RuneLength(b: Byte): nat {
    if b < 0x80 then 1 else if 0xC2 <= b < 0xE0 then 2 else if 0xE0 <= b < 0xF0 then 3 else if 0xF0 <= b < 0xF5 then 4
    else 0
  }

  /** The second byte is in the range its lead byte leaves: no overlong form, no surrogate,
      nothing above U+10FFFF. */
  predicate SecondByte(lead: Byte, b: Byte) {
    Continuation(b) && (lead == 0xE0 ==> b >= 0xA0) && (lead == 0xED ==> b < 0xA0)
    && (lead == 0xF0 ==> b >= 0x90) && (lead == 0xF4 ==> b < 0x90)
  }

  predicate StartsRune(s: Bytes) {
    s != []
    && var n := RuneLength(s[0]);
      0 < n <= |s| && (n > 1 ==> SecondByte(s[0], s[1])) && (forall i :: 1 <= i < n ==> Continuation(s[i]))
  }

  /** Well-formed UTF-8 (section 4 of RFC 3629). */
  predicate Utf8(s: Bytes) {
    s != [] ==> StartsRune(s) && Utf8(s[RuneLength(s[0])..])
  }

  /** A prefix of well-formed text is well formed exactly when it does not stop before a
      continuation byte. */
  lemma {:induction false} PrefixIsUtf8(s: Bytes, k: nat)
    requires Utf8(s) && k <= |s|
    ensures Utf8(s[..k]) <==> k == |s| || !Continuation(s[k])
  {
    if k == |s| {
      assert s[..k] == s;
    } else if k > 0 {
      var n, p := RuneLength(s[0]), s[..k];
      assert p[0] == s[0];
      if k >= n {
        PrefixIsUtf8(s[n..], k - n);
        assert p[n..] == s[n..][..k - n];
        assert StartsRune(p);
      }
    }
  }

  /** On well-formed text the cut is the longest well-formed prefix of at most `n` bytes. */
  lemma CutIsLongest(s: Bytes, n: nat, k: nat)
    requires Utf8(s)
    ensures Cut(s, n) <= n && Utf8(s[..Cut(s, n)])
    ensures k <= n && k <= |s| && Utf8(s[..k]) ==> k <= Cut(s, n)
  {
    PrefixIsUtf8(s, Cut(s, n));
    if k <= |s| {
      PrefixIsUtf8(s, k);
    }
  }

  lemma {:induction false} Utf8Append(a: Bytes, b: Bytes)
    requires Utf8(a) && Utf8(b)
    ensures Utf8(a + b)
  {
    if a == [] {
      assert a + b == b;
    } else {
      var n := RuneLength(a[0]);
      assert (a + b)[0] == a[0] && (a + b)[n..] == a[n..] + b;
      Utf8Append(a[n..], b);
      assert StartsRune(a + b);
    }
  }

  // ---------------------------------------------------------------- collapsing an entry

  function Bare(doc: Doc): Bytes {
    BULLET + doc.name
  }

  function Collapsed(doc: Doc, remaining: int): Bytes {
    var name, room := Bare(doc), remaining - |Bare(doc)| - 2;
    if doc.description == [] || room < 0 then name
    else if |doc.description| <= room then name + DASH + doc.description
    else if room > 1 then name + DASH + doc.description[..Cut(doc.description, room - 1)] + ELLIPSIS
    else name
  }

  method CollapseManifestEntry(doc: Doc, remaining: int) returns (r: Bytes)
    ensures r == Collapsed(doc, remaining)
  {
    var name := BULLET + doc.name;
    if doc.description == [] {
      return name;
    }
    if |name| + 2 <= remaining {
      var budgeted := remaining - |name| - 2;
      if |doc.description| <= budgeted {
        return name + DASH + doc.description;
      }
      if budgeted > 1 {
        var cut := TruncateRuneSafe(doc.description, budgeted - 1);
        return name + DASH + cut + ELLIPSIS;
      }
    }
    return name;
  }

  /** What the budget leaves is too little for any description, or there is none. */
  predicate OnlyName(doc: Doc, remaining: int) {
    var room := remaining - |Bare(doc)| - 2;
    doc.description == [] || room < 0 || (room < 2 && |doc.description| > room)
  }

  /** A collapsed entry keeps its name, and is only the name exactly when the budget says so. */
  lemma CollapsedKeepsName(doc: Doc, remaining: int)
    ensures Bare(doc) <= Collapsed(doc, remaining)
    ensures Collapsed(doc, remaining) == Bare(doc) <==> OnlyName(doc, remaining)
  {
    assert OnlyName(doc, remaining) || |Collapsed(doc, remaining)| > |Bare(doc)|;
  }

  lemma {:induction false} LeadNear(s: Bytes, i: nat) returns (j: nat)
    requires Utf8(s) && i < |s|
    ensures j <= i <= j + 3 && !Continuation(s[j])
  {
    var n := RuneLength(s[0]);
    if i < n {
      j := 0;
    } else {
      j := LeadNear(s[n..], i - n);
      j := j + n;
    }
  }

  lemma CutKeepsMost(s: Bytes, n: nat)
    requires Utf8(s) && n < |s|
    ensures n <= Cut(s, n) + 3
  {
    var j := LeadNear(s, n);
  }

  /** An entry with a description is within what was left exactly when the whole description
      is and three bytes more; a cut description always overruns, by two to five bytes: the
      dash counts for two bytes and the ellipsis for one, and they are five and three. */
  lemma CollapsedFitsIff(doc: Doc, remaining: int)
    requires Utf8(doc.description) && !OnlyName(doc, remaining)
    ensures |Collapsed(doc, remaining)| <= remaining <==> |Bare(doc)| + 5 + |doc.description| <= remaining
    ensures |Collapsed(doc, remaining)| <= remaining + 5
    ensures |doc.description| > remaining - |Bare(doc)| - 2 ==> |Collapsed(doc, remaining)| >= remaining + 2
  {
    var room := remaining - |Bare(doc)| - 2;
    if |doc.description| > room { CutKeepsMost(doc.description, room - 1); }
  }

  lemma CollapsedFits(doc: Doc, remaining: int)
    ensures Collapsed(doc, remaining) == Bare(doc) || |Collapsed(doc, remaining)| <= remaining + 5
  {
  }

  /** Cutting a description never splits a character. */
  lemma CollapsedIsUtf8(doc: Doc, remaining: int)
    requires Utf8(doc.name) && Utf8(doc.description)
    ensures Utf8(Collapsed(doc, remaining))
  {
    var name, room := Bare(doc), remaining - |Bare(doc)| - 2;
    EllipsisIsUtf8();
    Utf8Append(BULLET, doc.name);
    if !OnlyName(doc, remaining) {
      Utf8Append(name, DASH);
      if |doc.description| <= room {
        Utf8Append(name + DASH, doc.description);
      } else {
        CutIsUtf8(name + DASH, doc.description, room - 1);
      }
    }
  }

  lemma CutIsUtf8(before: Bytes, s: Bytes, n: nat)
    requires Utf8(before) && Utf8(s)
    ensures Utf8(before + s[..Cut(s, n)] + ELLIPSIS)
  {
    CutIsLongest(s, n, 0);
    Utf8Append(before, s[..Cut(s, n)]);
    EllipsisIsUtf8();
    Utf8Append(before + s[..Cut(s, n)], ELLIPSIS);
  }

  lemma EllipsisIsUtf8()
    ensures Utf8(ELLIPSIS) && Utf8(DASH) && Utf8(BULLET)
  {
    assert ELLIPSIS[3..] == [];
    assert DASH[1..][0] == 0xE2 && DASH[1..][3..] == [32] && [32 as Byte][1..] == [];
  }

  // ---------------------------------------------------------------- the budget pass

  function Fitted(doc: Doc, full: Bytes, remaining: int): Bytes {
    if |full| <= remaining then full else Collapsed(doc, remaining)
  }

  /** The entries after the pass, given each document's full entry. */
  function Entries(docs: seq<Doc>, full: seq<Bytes>, remaining: int): seq<Bytes>
    requires |docs| == |full|
  {
    if docs == [] then []
    else
      var entry := Fitted(docs[0], full[0], remaining);
      [entry] + Entries(docs[1..], full[1..], remaining - |entry| - 1)
  }

  function Headed(header: Bytes, entries: seq<Bytes>): Bytes {
    header + Joined(entries, [NEWLINE])
  }

  function Block(header: Bytes, docs: seq<Doc>, budget: int): Bytes {
    if docs == [] then [] else Headed(header, Entries(docs, Map(FullEntry, docs), budget - |header|))
  }

  lemma EntriesStep(before: seq<Bytes>, docs: seq<Doc>, full: seq<Bytes>, remaining: int, i: nat)
    requires |docs| == |full| && i < |docs|
    ensures var entry := Fitted(docs[i], full[i], remaining);
      before + Entries(docs[i..], full[i..], remaining)
      == before + [entry] + Entries(docs[i + 1..], full[i + 1..], remaining - |entry| - 1)
  {
    var entry := Fitted(docs[i], full[i], remaining);
    assert docs[i..][0] == docs[i] && docs[i..][1..] == docs[i + 1..];
    assert full[i..][0] == full[i] && full[i..][1..] == full[i + 1..];
    Regroup(before, [entry], Entries(docs[i + 1..], full[i + 1..], remaining - |entry| - 1));
  }

  method BudgetPass(docs: seq<Doc>, start: int, entries: array<Bytes>)
    requires entries.Length == |docs|
    modifies entries
    ensures entries[..] == Entries(docs, old(entries[..]), start)
  {
    var remaining := start;
    ghost var full := entries[..];
    for i := 0 to |docs|
      invariant entries[..i] + Entries(docs[i..], full[i..], remaining) == Entries(docs, full, start)
      invariant entries[i..] == full[i..]
    {
      ghost var before := entries[..i];
      EntriesStep(before, docs, full, remaining, i);
      assert entries[i] == full[i..][0];
      if |entries[i]| > remaining {
        var collapsed := CollapseManifestEntry(docs[i], remaining);
        entries[i] := collapsed;
      }
      remaining := remaining - |entries[i]| - 1;
      assert entries[..i + 1] == before + [entries[i]];
      assert entries[i + 1..] == full[i..][1..];
    }
    assert entries[..|docs|] == entries[..];
    assert Entries(docs[|docs|..], full[|docs|..], remaining) == [];
  }

  method FullEntries(docs: seq<Doc>) returns (entries: array<Bytes>)
    ensures fresh(entries) && entries[..] == Map(FullEntry, docs)
  {
    entries := new Bytes[|docs|](i requires 0 <= i < |docs| => FullEntry(docs[i]));
    assert entries[..] == Map(FullEntry, docs);
  }

  method FittedEntries(docs: seq<Doc>, start: int) returns (r: seq<Bytes>)
    ensures r == Entries(docs, Map(FullEntry, docs), start)
  {
    var entries := FullEntries(docs);
    BudgetPass(docs, start, entries);
    r := entries[..];
  }

  method RenderReferenceManifest(header: Bytes, docs: seq<Doc>, budget: int) returns (block: Bytes)
    ensures block == Block(header, docs, budget)
  {
    if docs == [] {
      return [];
    }
    var entries := FittedEntries(docs, budget - |header|);
    block := Headed(header, entries);
  }

  lemma FullKeepsName(doc: Doc)
    ensures Bare(doc) <= FullEntry(doc)
  {
    var rest := NonEmpty(doc.description) + NonEmpty(doc.pages) + NonEmpty(TocSegment(doc));
    var parts := [doc.name] + NonEmpty(doc.description) + NonEmpty(doc.pages) + NonEmpty(TocSegment(doc));
    assert parts == [doc.name] + rest;
    assert doc.name <= Joined(parts, DASH);
  }

  /** Full entries, or whatever else begins with its document's name. */
  ghost predicate NameFirst(docs: seq<Doc>, full: seq<Bytes>) {
    |docs| == |full| && forall i :: 0 <= i < |docs| ==> Bare(docs[i]) <= full[i]
  }

  lemma FullNamesFirst(docs: seq<Doc>)
    ensures NameFirst(docs, Map(FullEntry, docs))
  {
    forall i | 0 <= i < |docs| ensures Bare(docs[i]) <= Map(FullEntry, docs)[i] { FullKeepsName(docs[i]); }
  }

  lemma {:induction false} EntriesKeepNames(docs: seq<Doc>, full: seq<Bytes>, remaining: int, i: nat)
    requires NameFirst(docs, full) && i < |docs|
    ensures |Entries(docs, full, remaining)| == |docs| && Bare(docs[i]) <= Entries(docs, full, remaining)[i]
    decreases |docs|
  {
    var entry := Fitted(docs[0], full[0], remaining);
    CollapsedKeepsName(docs[0], remaining);
    if |docs| > 1 {
      EntriesKeepNames(docs[1..], full[1..], remaining - |entry| - 1, if i == 0 then 0 else i - 1);
    }
  }

  /** Every document keeps its entry, in order, and every entry its document's name. */
  lemma EveryDocumentIsNamed(docs: seq<Doc>, remaining: int)
    ensures var entries := Entries(docs, Map(FullEntry, docs), remaining);
      |entries| == |docs| && forall i :: 0 <= i < |docs| ==> Bare(docs[i]) <= entries[i]
  {
    var full := Map(FullEntry, docs);
    FullNamesFirst(docs);
    forall i | 0 <= i < |docs|
      ensures |Entries(docs, full, remaining)| == |docs| && Bare(docs[i]) <= Entries(docs, full, remaining)[i]
    {
      EntriesKeepNames(docs, full, remaining, i);
    }
  }

  /** The bytes, with their newlines, of the entries the budget left nothing but a name. */
  function BareBytes(docs: seq<Doc>, full: seq<Bytes>, remaining: int): nat
    requires |docs| == |full|
  {
    if docs == [] then 0
    else
      var entry := Fitted(docs[0], full[0], remaining);
      (if |full[0]| > remaining && entry == Bare(docs[0]) then |entry| + 1 else 0)
      + BareBytes(docs[1..], full[1..], remaining - |entry| - 1)
  }

  lemma {:induction false} PassWithinBudget(docs: seq<Doc>, full: seq<Bytes>, remaining: int)
    requires docs != [] && NameFirst(docs, full)
    ensures |Joined(Entries(docs, full, remaining), [NEWLINE])| + 1
         <= (if remaining >= 0 then remaining + 6 else 0) + BareBytes(docs, full, remaining)
    decreases |docs|
  {
    var entry := Fitted(docs[0], full[0], remaining);
    var left := remaining - |entry| - 1;
    CollapsedFits(docs[0], remaining);
    CollapsedKeepsName(docs[0], remaining);
    assert |entry| >= 2;
    if |docs| == 1 {
      assert Entries(docs[1..], full[1..], left) == [] && Entries(docs, full, remaining) == [entry];
    } else {
      PassWithinBudget(docs[1..], full[1..], left);
      var entries := Entries(docs, full, remaining);
      assert entries[0] == entry && entries[1..] == Entries(docs[1..], full[1..], left) && |entries| > 1;
    }
  }

  /** The block exceeds its budget by at most five bytes plus the entries that are only a
      name; a budget below the header counts as the header. */
  lemma BlockWithinBudget(header: Bytes, docs: seq<Doc>, budget: int)
    ensures var limit := if budget >= |header| then budget + 5 else |header|;
      |Block(header, docs, budget)| <= limit + BareBytes(docs, Map(FullEntry, docs), budget - |header|)
  {
    var full := Map(FullEntry, docs);
    FullNamesFirst(docs);
    if docs != [] {
      PassWithinBudget(docs, full, budget - |header|);
    }
  }

  // ---------------------------------------------------------------- when the block keeps its budget

  /** The entry is within what is left: in full, as a bare name, or with its whole description. */
  predicate KeepsBudget(doc: Doc, full: Bytes, remaining: int) {
    |full| <= remaining
    || (OnlyName(doc, remaining) && |Bare(doc)| <= remaining)
    || (!OnlyName(doc, remaining) && |Bare(doc)| + 5 + |doc.description| <= remaining)
  }

  lemma FittedIff(doc: Doc, full: Bytes, remaining: int)
    requires Utf8(doc.description)
    ensures |Fitted(doc, full, remaining)| <= remaining <==> KeepsBudget(doc, full, remaining)
  {
    CollapsedKeepsName(doc, remaining);
    if !OnlyName(doc, remaining) { CollapsedFitsIff(doc, remaining); }
  }

  /** What is left of the budget for the i-th entry. */
  function LeftFor(docs: seq<Doc>, full: seq<Bytes>, remaining: int, i: nat): int
    requires |docs| == |full| && i < |docs|
    decreases i
  {
    if i == 0 then remaining
    else LeftFor(docs[1..], full[1..], remaining - |Fitted(docs[0], full[0], remaining)| - 1, i - 1)
  }

  ghost predicate AllKeep(docs: seq<Doc>, full: seq<Bytes>, remaining: int)
    requires |docs| == |full|
  {
    forall i :: 0 <= i < |docs| ==> KeepsBudget(docs[i], full[i], LeftFor(docs, full, remaining, i))
  }

  lemma LeftForRest(docs: seq<Doc>, full: seq<Bytes>, remaining: int, i: nat)
    requires |docs| == |full| && 0 < i < |docs|
    ensures LeftFor(docs, full, remaining, i)
         == LeftFor(docs[1..], full[1..], remaining - |Fitted(docs[0], full[0], remaining)| - 1, i - 1)
  {
  }

  lemma AllKeepStep(docs: seq<Doc>, full: seq<Bytes>, remaining: int)
    requires docs != [] && |docs| == |full|
    ensures AllKeep(docs, full, remaining)
       <==> KeepsBudget(docs[0], full[0], remaining)
            && AllKeep(docs[1..], full[1..], remaining - |Fitted(docs[0], full[0], remaining)| - 1)
  {
    var left := remaining - |Fitted(docs[0], full[0], remaining)| - 1;
    var rest, others := docs[1..], full[1..];
    assert LeftFor(docs, full, remaining, 0) == remaining;
    if AllKeep(docs, full, remaining) {
      assert KeepsBudget(docs[0], full[0], LeftFor(docs, full, remaining, 0));
      forall i | 0 <= i < |rest| ensures KeepsBudget(rest[i], others[i], LeftFor(rest, others, left, i)) {
        LeftForRest(docs, full, remaining, i + 1);
        assert KeepsBudget(docs[i + 1], full[i + 1], LeftFor(docs, full, remaining, i + 1));
      }
    }
    if KeepsBudget(docs[0], full[0], remaining) && AllKeep(rest, others, left) {
      forall i | 0 <= i < |docs| ensures KeepsBudget(docs[i], full[i], LeftFor(docs, full, remaining, i)) {
        if i > 0 {
          LeftForRest(docs, full, remaining, i);
          assert KeepsBudget(rest[i - 1], others[i - 1], LeftFor(rest, others, left, i - 1));
        }
      }
    }
  }

  /** The descriptions are well-formed text. */
  ghost predicate Described(docs: seq<Doc>) {
    forall i :: 0 <= i < |docs| ==> Utf8(docs[i].description)
  }

  lemma {:induction false} PassKeepsIff(docs: seq<Doc>, full: seq<Bytes>, remaining: int)
    requires docs != [] && NameFirst(docs, full) && Described(docs)
    ensures |Joined(Entries(docs, full, remaining), [NEWLINE])| <= remaining <==> AllKeep(docs, full, remaining)
    decreases |docs|
  {
    var entry := Fitted(docs[0], full[0], remaining);
    var left, entries := remaining - |entry| - 1, Entries(docs, full, remaining);
    FittedIff(docs[0], full[0], remaining);
    CollapsedKeepsName(docs[0], remaining);
    AllKeepStep(docs, full, remaining);
    if |docs| == 1 {
      assert Entries(docs[1..], full[1..], left) == [] && entries == [entry];
    } else {
      PassKeepsIff(docs[1..], full[1..], left);
      assert entries[0] == entry && entries[1..] == Entries(docs[1..], full[1..], left) && |entries| > 1;
    }
  }

  lemma HeadedLength(header: Bytes, entries: seq<Bytes>)
    ensures |Headed(header, entries)| == |header| + |Joined(entries, [NEWLINE])|
  {
  }

  /** The block is within its budget exactly when every entry is within what is left for it:
      none is cut, none misses the three bytes its dash counts short, and no bare name stands
      where there was no room even for that. */
  lemma BlockKeepsBudgetIff(header: Bytes, docs: seq<Doc>, full: seq<Bytes>, budget: int)
    requires docs != [] && Described(docs) && full == Map(FullEntry, docs)
    ensures |Block(header, docs, budget)| <= budget <==> AllKeep(docs, full, budget - |header|)
  {
    var start := budget - |header|;
    var entries := Entries(docs, full, start);
    assert |Headed(header, entries)| == |header| + |Joined(entries, [NEWLINE])| by { HeadedLength(header, entries); }
    assert |Joined(entries, [NEWLINE])| <= start <==> AllKeep(docs, full, start) by {
      FullNamesFirst(docs);
      PassKeepsIff(docs, full, start);
    }
    assert Block(header, docs, budget) == Headed(header, entries);
  }

  // ---------------------------------------------------------------- what an entry tells

  predicate At(s: Bytes, part: Bytes, i: nat) {
    i + |part| <= |s| && s[i..i + |part|] == part
  }

  /** The parts stand in the text one behind the other. */
  ghost predicate InOrder(s: Bytes, parts: seq<Bytes>)
    decreases |parts|
  {
    parts == [] || exists i: nat :: At(s, parts[0], i) && InOrder(s[i + |parts[0]|..], parts[1..])
  }

  lemma InOrderBehind(before: Bytes, s: Bytes, parts: seq<Bytes>)
    requires InOrder(s, parts)
    ensures InOrder(before + s, parts)
  {
    if parts != [] {
      var i: nat :| At(s, parts[0], i) && InOrder(s[i + |parts[0]|..], parts[1..]);
      var k := |before| + i;
      assert (before + s)[k..k + |parts[0]|] == s[i..i + |parts[0]|];
      assert (before + s)[k + |parts[0]|..] == s[i + |parts[0]|..];
      assert At(before + s, parts[0], k);
    }
  }

  lemma {:induction false} InOrderBoth(a: Bytes, x: seq<Bytes>, b: Bytes, y: seq<Bytes>)
    requires InOrder(a, x) && InOrder(b, y)
    ensures InOrder(a + b, x + y)
    decreases |x|
  {
    if x == [] {
      assert x + y == y;
      InOrderBehind(a, b, y);
    } else {
      var i: nat :| At(a, x[0], i) && InOrder(a[i + |x[0]|..], x[1..]);
      InOrderBoth(a[i + |x[0]|..], x[1..], b, y);
      assert (x + y)[0] == x[0] && (x + y)[1..] == x[1..] + y;
      assert (a + b)[i + |x[0]|..] == a[i + |x[0]|..] + b;
      assert (a + b)[i..i + |x[0]|] == a[i..i + |x[0]|];
      assert At(a + b, x[0], i);
    }
  }

  lemma OneInOrder(part: Bytes)
    ensures InOrder(part, [part])
  {
    assert [part][1..] == [] && InOrder(part[|part|..], [part][1..]);
    assert part[0..0 + |part|] == part && At(part, [part][0], 0);
  }

  lemma {:induction false} JoinedInOrder(parts: seq<Bytes>, separator: Bytes)
    ensures InOrder(Joined(parts, separator), parts)
  {
    if |parts| == 1 {
      OneInOrder(parts[0]);
      assert parts == [parts[0]];
    } else if |parts| > 1 {
      JoinedInOrder(parts[1..], separator);
      InOrderBehind(separator, Joined(parts[1..], separator), parts[1..]);
      OneInOrder(parts[0]);
      InOrderBoth(parts[0], [parts[0]], separator + Joined(parts[1..], separator), parts[1..]);
      assert parts == [parts[0]] + parts[1..];
      Regroup(parts[0], separator, Joined(parts[1..], separator));
    }
  }

  lemma {:induction false} JoinedLast(parts: seq<Bytes>, last: Bytes, separator: Bytes)
    requires parts != []
    ensures Joined(parts + [last], separator) == Joined(parts, separator) + (separator + last)
  {
    var all := parts + [last];
    assert all[0] == parts[0] && all[1..] == parts[1..] + [last];
    if |parts| == 1 {
      assert all[1..] == [last];
      Regroup(parts[0], separator, last);
    } else {
      JoinedLast(parts[1..], last, separator);
      Regroup(parts[0] + separator, Joined(parts[1..], separator), separator + last);
    }
  }

  /** All a document has to tell. */
  function Details(doc: Doc): seq<Bytes> {
    [doc.name] + NonEmpty(doc.description) + NonEmpty(doc.pages) + doc.toc
  }

  lemma FullEntryTellsAll(doc: Doc)
    ensures InOrder(FullEntry(doc), Details(doc))
  {
    var parts := [doc.name] + NonEmpty(doc.description) + NonEmpty(doc.pages);
    var text := Joined(parts, DASH);
    JoinedInOrder(parts, DASH);
    if doc.toc == [] {
      assert parts + NonEmpty(TocSegment(doc)) == parts && Details(doc) == parts;
      InOrderBehind(BULLET, text, parts);
    } else {
      var headings := Joined(doc.toc, SEMICOLON);
      JoinedLast(parts, TocSegment(doc), DASH);
      JoinedInOrder(doc.toc, SEMICOLON);
      InOrderBehind(TOC_LABEL, headings, doc.toc);
      InOrderBehind(DASH, TOC_LABEL + headings, doc.toc);
      InOrderBoth(text, parts, DASH + (TOC_LABEL + headings), doc.toc);
      InOrderBehind(BULLET, text + (DASH + (TOC_LABEL + headings)), Details(doc));
    }
  }

  lemma {:induction false} EntryIsFitted(docs: seq<Doc>, full: seq<Bytes>, remaining: int, i: nat)
    requires |docs| == |full| && i < |docs|
    ensures |Entries(docs, full, remaining)| == |docs|
    ensures Entries(docs, full, remaining)[i] == Fitted(docs[i], full[i], LeftFor(docs, full, remaining, i))
    decreases |docs|
  {
    var left := remaining - |Fitted(docs[0], full[0], remaining)| - 1;
    if i > 0 {
      EntryIsFitted(docs[1..], full[1..], left, i - 1);
    } else if |docs| > 1 {
      EntryIsFitted(docs[1..], full[1..], left, 0);
    }
  }

  /** A document whose full entry is within what is left for it is told whole: its name, its
      description, its page count and every heading, in that order. */
  lemma FittingEntryTellsAll(docs: seq<Doc>, remaining: int, i: nat)
    requires i < |docs|
    ensures var full := Map(FullEntry, docs);
      |Entries(docs, full, remaining)| == |docs|
      && (|full[i]| <= LeftFor(docs, full, remaining, i) ==>
            InOrder(Entries(docs, full, remaining)[i], Details(docs[i])))
  {
    EntryIsFitted(docs, Map(FullEntry, docs), remaining, i);
    FullEntryTellsAll(docs[i]);
  }

  /** The five bytes are real: the dash is counted as two bytes and the ellipsis as one. No
      entry of this block is a bare name. */
  lemma FiveBytesOver(header: Bytes)
    ensures var docs := [Doc([110], seq(10, i => 97), [], [])];
      |Block(header, docs, |header| + 7)| == |header| + 7 + 5 && BareBytes(docs, Map(FullEntry, docs), 7) == 0
  {
    var doc := Doc([110], seq(10, i => 97), [], []);
    var docs, full := [doc], Map(FullEntry, [doc]);
    assert docs[1..] == [] && full[1..] == [];
    var parts := [doc.name, doc.description];
    assert [doc.name] + NonEmpty(doc.description) + NonEmpty(doc.pages) + NonEmpty(TocSegment(doc)) == parts;
    assert parts[1..] == [doc.description];
    assert |full[0]| > 7;
    assert Cut(doc.description, 1) == 1;
    assert |Collapsed(doc, 7)| == 12;
    assert Entries(docs, full, 7) == [Collapsed(doc, 7)];
  }
}
