/** The page counter of an uploaded PDF: a scan that jumps from marker to marker, against the
    plain count of the positions where a page object begins. */
module PdfScanner {
  import opened Sequences
  import opened Text

  const TYPE_MARK := "/Type"
  const PAGE_MARK := "/Page"

  predicate IsBlank(c: char) {
    c == ' ' || c == '\t' || c == '\r' || c == '\n'
  }

  /** The first position from `i` on that is not blank. */
  function SkipBlanks(s: string, i: nat): (k: nat)
    requires i <= |s|
    ensures i <= k <= |s|
    ensures forall p :: i <= p < k ==> IsBlank(s[p])
    ensures k < |s| ==> !IsBlank(s[k])
    decreases |s| - i
  {
    if i < |s| && IsBlank(s[i]) then SkipBlanks(s, i + 1) else i
  }

  predicate PageMarkAt(s: string, k: nat) {
    k + 5 <= |s| && s[k..k + 5] == PAGE_MARK && (k + 5 >= |s| || s[k + 5] != 's')
  }

  /** A page object begins at `p`: the type mark, blanks, the page mark, and no `s` after it. */
  predicate PageAt(s: string, p: nat) {
    OccursAt(s, TYPE_MARK, p) && PageMarkAt(s, SkipBlanks(s, p + 5))
  }

  function PagesFrom(s: string, p: nat): nat
    decreases |s| - p
  {
    if p >= |s| then 0 else (if PageAt(s, p) then 1 else 0) + PagesFrom(s, p + 1)
  }

  /** `bytes.Index` for the type mark, from `i` on. */
  function NextType(s: string, i: nat): (r: Option<nat>)
    ensures r.Some? ==> i <= r.value && OccursAt(s, TYPE_MARK, r.value)
    ensures forall p :: i <= p && (r.Some? ==> p < r.value) ==> !OccursAt(s, TYPE_MARK, p)
    decreases |s| - i
  {
    if i > |s| then None else if OccursAt(s, TYPE_MARK, i) then Some(i) else NextType(s, i + 1)
  }

  lemma {:induction false} NoPagesBetween(s: string, a: nat, b: nat)
    requires a <= b && forall p :: a <= p < b ==> !PageAt(s, p)
    ensures PagesFrom(s, a) == PagesFrom(s, b)
    decreases b - a
  {
    if a < b {
      assert !PageAt(s, a);
      NoPagesBetween(s, a + 1, b);
    }
  }

  lemma MarkBytes(s: string, mark: string, p: nat, d: nat)
    requires OccursAt(s, mark, p) && d < |mark|
    ensures s[p + d] == mark[d]
  {
    assert s[p..p + |mark|][d] == mark[d];
  }

  /** No type mark begins inside another, or inside the blanks and the page mark after it. */
  lemma NoTypeInside(s: string, p: nat, q: nat)
    requires OccursAt(s, TYPE_MARK, p) && p < q
    requires q < p + 5 || (PageAt(s, p) && q < SkipBlanks(s, p + 5) + 5)
    ensures !OccursAt(s, TYPE_MARK, q)
  {
    var k := SkipBlanks(s, p + 5);
    if OccursAt(s, TYPE_MARK, q) {
      MarkBytes(s, TYPE_MARK, q, 0);
      MarkBytes(s, TYPE_MARK, q, 1);
      if q < p + 5 {
        MarkBytes(s, TYPE_MARK, p, q - p);
      } else if q >= k {
        MarkBytes(s, PAGE_MARK, k, q - k);
        MarkBytes(s, PAGE_MARK, k, 1);
      }
    }
  }

  /** Where the scan goes on after a type mark at `p`. */
  function After(s: string, p: nat): nat
    requires p + 5 <= |s|
  {
    if PageAt(s, p) then SkipBlanks(s, p + 5) + 5 else p + 5
  }

  lemma Jump(s: string, i: nat)
    ensures match NextType(s, i)
      case None => PagesFrom(s, i) == 0
      case Some(p) => PagesFrom(s, i) == (if PageAt(s, p) then 1 else 0) + PagesFrom(s, After(s, p))
  {
    match NextType(s, i)
    case None => if i < |s| { NoPagesBetween(s, i, |s|); }
    case Some(p) =>
      NoPagesBetween(s, i, p);
      forall q | p < q < After(s, p) ensures !PageAt(s, q) { NoTypeInside(s, p, q); }
      NoPagesBetween(s, p + 1, After(s, p));
  }

  method AfterBlanks(s: string, i: nat) returns (k: nat)
    requires i <= |s|
    ensures k == SkipBlanks(s, i)
  {
    k := i;
    while k < |s| && IsBlank(s[k])
      invariant i <= k <= |s| && SkipBlanks(s, k) == SkipBlanks(s, i)
    {
      k := k + 1;
    }
  }

  /** The scan counts every page object once, although it jumps over what it has matched. */
  method PdfPageCount(head: string) returns (count: nat)
    ensures count == PagesFrom(head, 0)
  {
    count := 0;
    var i: nat := 0;
    while i <= |head|
      invariant count + PagesFrom(head, i) == PagesFrom(head, 0)
      decreases |head| + 1 - i
    {
      Jump(head, i);
      var j := NextType(head, i);
      if j.None? {
        return;
      }
      i := j.value + 5;
      var k := AfterBlanks(head, i);
      if PageMarkAt(head, k) {
        count := count + 1;
        i := k + 5;
      }
    }
  }

  // ---------------------------------------------------------------- a truncated head

  /** A page object of the head that the byte after the head could still undo. */
  predicate Undecided(s: string, n: nat, p: nat)
    requires n <= |s|
  {
    PageAt(s[..n], p) && SkipBlanks(s[..n], p + 5) + 5 == n
  }

  lemma {:induction false} SkipInPrefix(s: string, n: nat, i: nat)
    requires i <= n <= |s|
    ensures SkipBlanks(s[..n], i) < n ==> SkipBlanks(s, i) == SkipBlanks(s[..n], i)
    decreases n - i
  {
    if i < n && IsBlank(s[i]) {
      SkipInPrefix(s, n, i + 1);
    }
  }

  lemma DecidedStays(s: string, n: nat, p: nat)
    requires n <= |s| && PageAt(s[..n], p) && !Undecided(s, n, p)
    ensures PageAt(s, p)
  {
    var k := SkipBlanks(s[..n], p + 5);
    SkipInPrefix(s, n, p + 5);
    assert s[..n][p..p + 5] == s[p..p + 5];
    assert s[..n][k..k + 5] == s[k..k + 5];
  }

  lemma OneUndecided(s: string, n: nat, p: nat, q: nat)
    requires n <= |s| && p < q && Undecided(s, n, p)
    ensures !Undecided(s, n, q)
  {
    if Undecided(s, n, q) {
      NoTypeInside(s[..n], p, q);
    }
  }

  lemma {:induction false} PrefixPages(s: string, n: nat, p: nat)
    requires n <= |s|
    ensures PagesFrom(s[..n], p) <= PagesFrom(s, p) + if exists q :: p <= q && Undecided(s, n, q) then 1 else 0
    decreases n - p
  {
    if p < n {
      PrefixPages(s, n, p + 1);
      if Undecided(s, n, p) {
        forall q | p < q ensures !Undecided(s, n, q) { OneUndecided(s, n, p, q); }
      } else if PageAt(s[..n], p) {
        DecidedStays(s, n, p);
      }
    }
  }

  /** Counting only the head of a file overcounts by at most one page. */
  lemma HeadOvercountsByAtMostOne(s: string, n: nat)
    requires n <= |s|
    ensures PagesFrom(s[..n], 0) <= PagesFrom(s, 0) + 1
  {
    PrefixPages(s, n, 0);
  }

  /** And it can: the tree node's `s` lies behind the cut. */
  lemma HeadCanOvercount()
    ensures PagesFrom("/Type/Pages", 0) == 0 && PagesFrom("/Type/Pages"[..10], 0) == 1
  {
    var whole, head := "/Type/Pages", "/Type/Page";
    assert whole[..10] == head;
    assert OccursAt(whole, TYPE_MARK, 0) && OccursAt(head, TYPE_MARK, 0);
    assert OccursAt(whole, PAGE_MARK, 5) && OccursAt(head, PAGE_MARK, 5);
    assert !PageAt(whole, 0) && PageAt(head, 0);
    forall q | 0 < q < 11 ensures !PageAt(whole, q) && !PageAt(head, q) {
      if OccursAt(whole, TYPE_MARK, q) { MarkBytes(whole, TYPE_MARK, q, 0); MarkBytes(whole, TYPE_MARK, q, 1); }
      if OccursAt(head, TYPE_MARK, q) { MarkBytes(head, TYPE_MARK, q, 0); MarkBytes(head, TYPE_MARK, q, 1); }
    }
    NoPagesBetween(whole, 1, 11);
    NoPagesBetween(head, 1, 11);
  }
}
