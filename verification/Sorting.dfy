/** Sorting by a string key: what `sort.Strings` and `sort.Slice` give on keys that differ. */
module Sorting {
  import opened Sequences

  /** The order of Go's strings: byte by byte, a proper prefix first. */
  predicate Less(a: string, b: string)
    decreases |a|
  {
    b != "" && (a == "" || a[0] < b[0] || (a[0] == b[0] && Less(a[1..], b[1..])))
  }

  lemma {:induction false} LessTotal(a: string, b: string)
    ensures !(Less(a, b) && Less(b, a))
    ensures a != b ==> Less(a, b) || Less(b, a)
    ensures !Less(a, a)
    decreases |a|
  {
    if a != "" {
      LessTotal(a[1..], a[1..]);
      if b != "" {
        LessTotal(a[1..], b[1..]);
        assert a == [a[0]] + a[1..] && b == [b[0]] + b[1..];
      }
    }
  }

  lemma {:induction false} LessTransitive(a: string, b: string, c: string)
    requires Less(a, b) && Less(b, c)
    ensures Less(a, c)
    decreases |a|
  {
    if a != "" && a[0] == b[0] == c[0] {
      LessTransitive(a[1..], b[1..], c[1..]);
    }
  }

  ghost predicate Ascending<T>(key: T -> string, s: seq<T>) {
    forall i, j :: 0 <= i < j < |s| ==> Less(key(s[i]), key(s[j]))
  }

  function Insert<T>(key: T -> string, x: T, s: seq<T>): seq<T> {
    if s == [] || Less(key(x), key(s[0])) then [x] + s else [s[0]] + Insert(key, x, s[1..])
  }

  function SortBy<T>(key: T -> string, s: seq<T>): seq<T> {
    if s == [] then [] else Insert(key, s[0], SortBy(key, s[1..]))
  }

  lemma {:induction false} InsertMember<T>(key: T -> string, x: T, s: seq<T>, y: T)
    ensures y in Insert(key, x, s) <==> y == x || y in s
  {
    if s != [] && !Less(key(x), key(s[0])) {
      InsertMember(key, x, s[1..], y);
      assert s == [s[0]] + s[1..];
    }
  }

  lemma {:induction false} SortMember<T>(key: T -> string, s: seq<T>, y: T)
    ensures y in SortBy(key, s) <==> y in s
  {
    if s != [] {
      InsertMember(key, s[0], SortBy(key, s[1..]), y);
      SortMember(key, s[1..], y);
      assert s == [s[0]] + s[1..];
    }
  }

  lemma AscendingCons<T>(key: T -> string, x: T, s: seq<T>)
    requires Ascending(key, s) && forall y :: y in s ==> Less(key(x), key(y))
    ensures Ascending(key, [x] + s)
  {
    var all := [x] + s;
    forall i, j | 0 <= i < j < |all| ensures Less(key(all[i]), key(all[j])) {
      assert all[j] == s[j - 1] && s[j - 1] in s;
      if i > 0 { assert all[i] == s[i - 1]; }
    }
  }

  lemma FirstIsLeast<T>(key: T -> string, s: seq<T>, y: T)
    requires Ascending(key, s) && s != [] && y in s
    ensures y == s[0] || Less(key(s[0]), key(y))
  {
    var i :| 0 <= i < |s| && s[i] == y;
  }

  lemma {:induction false} InsertAscends<T>(key: T -> string, x: T, s: seq<T>)
    requires Ascending(key, s) && forall y :: y in s ==> key(y) != key(x)
    ensures Ascending(key, Insert(key, x, s))
  {
    if s == [] {
    } else if Less(key(x), key(s[0])) {
      forall y | y in s ensures Less(key(x), key(y)) {
        FirstIsLeast(key, s, y);
        if y != s[0] { LessTransitive(key(x), key(s[0]), key(y)); }
      }
      AscendingCons(key, x, s);
    } else {
      var rest := s[1..];
      assert s[0] in s;
      LessTotal(key(s[0]), key(x));
      InsertAscends(key, x, rest);
      forall y | y in Insert(key, x, rest) ensures Less(key(s[0]), key(y)) {
        InsertMember(key, x, rest, y);
        if y != x {
          var i :| 0 <= i < |rest| && rest[i] == y;
          assert s[i + 1] == y;
        }
      }
      AscendingCons(key, s[0], Insert(key, x, rest));
    }
  }

  lemma {:induction false} SortAscends<T>(key: T -> string, s: seq<T>)
    requires Distinct(Map(key, s))
    ensures Ascending(key, SortBy(key, s))
  {
    if s != [] {
      var rest := s[1..];
      assert s == [s[0]] + rest;
      DistinctMaps(key, [s[0]], rest);
      SortAscends(key, rest);
      forall y | y in SortBy(key, rest) ensures key(y) != key(s[0]) {
        SortMember(key, rest, y);
        assert s[0] in [s[0]];
      }
      InsertAscends(key, s[0], SortBy(key, rest));
    }
  }

  lemma TailMember<T>(key: T -> string, s: seq<T>, x: T)
    requires Ascending(key, s) && s != []
    ensures x in s[1..] <==> x in s && x != s[0]
  {
    assert s == [s[0]] + s[1..];
    if x in s[1..] {
      var i :| 0 <= i < |s| - 1 && s[1..][i] == x;
      assert Less(key(s[0]), key(s[i + 1]));
      LessTotal(key(x), key(x));
    }
  }

  /** Two ascending lists of the same elements are the same list. */
  lemma {:induction false} AscendingUnique<T(!new)>(key: T -> string, a: seq<T>, b: seq<T>)
    requires Ascending(key, a) && Ascending(key, b) && forall x :: x in a <==> x in b
    ensures a == b
  {
    assert a != [] ==> a[0] in a;
    assert b != [] ==> b[0] in b;
    if a != [] {
      FirstIsLeast(key, a, b[0]);
      FirstIsLeast(key, b, a[0]);
      LessTotal(key(a[0]), key(b[0]));
      forall x ensures x in a[1..] <==> x in b[1..] {
        TailMember(key, a, x);
        TailMember(key, b, x);
      }
      AscendingUnique(key, a[1..], b[1..]);
      assert a == [a[0]] + a[1..] && b == [b[0]] + b[1..];
    }
  }

  /** Sorting forgets the order the elements came in. */
  lemma SortIgnoresOrder<T(!new)>(key: T -> string, a: seq<T>, b: seq<T>)
    requires Distinct(Map(key, a)) && Distinct(Map(key, b)) && forall x :: x in a <==> x in b
    ensures SortBy(key, a) == SortBy(key, b)
  {
    SortAscends(key, a);
    SortAscends(key, b);
    forall x ensures x in SortBy(key, a) <==> x in SortBy(key, b) {
      SortMember(key, a, x);
      SortMember(key, b, x);
    }
    AscendingUnique(key, SortBy(key, a), SortBy(key, b));
  }

  // ---------------------------------------------------------------- keys that may be equal

  ghost predicate Ordered<T>(key: T -> string, s: seq<T>) {
    forall i, j :: 0 <= i < j < |s| ==> !Less(key(s[j]), key(s[i]))
  }

  lemma SameKeysOrdered<T>(key: T -> string, s: seq<T>, t: seq<T>)
    requires Ordered(key, s) && |t| == |s| && forall k :: 0 <= k < |s| ==> key(t[k]) == key(s[k])
    ensures Ordered(key, t)
  {
  }

  lemma NotLessTransitive(a: string, b: string, c: string)
    requires !Less(b, a) && !Less(c, b)
    ensures !Less(c, a)
  {
    LessTotal(a, b);
    LessTotal(b, c);
    if Less(c, a) && Less(a, b) { LessTransitive(c, a, b); }
  }

  lemma OrderedCons<T>(key: T -> string, x: T, s: seq<T>)
    requires Ordered(key, s) && forall y :: y in s ==> !Less(key(y), key(x))
    ensures Ordered(key, [x] + s)
  {
    var all := [x] + s;
    forall i, j | 0 <= i < j < |all| ensures !Less(key(all[j]), key(all[i])) {
      assert all[j] == s[j - 1] && s[j - 1] in s;
      if i > 0 { assert all[i] == s[i - 1]; }
    }
  }

  lemma FirstIsNotGreater<T>(key: T -> string, s: seq<T>, y: T)
    requires Ordered(key, s) && y in s
    ensures !Less(key(y), key(s[0]))
  {
    var i :| 0 <= i < |s| && s[i] == y;
    LessTotal(key(y), key(y));
  }

  lemma {:induction false} InsertOrders<T>(key: T -> string, x: T, s: seq<T>)
    requires Ordered(key, s)
    ensures Ordered(key, Insert(key, x, s)) && multiset(Insert(key, x, s)) == multiset{x} + multiset(s)
  {
    if s == [] {
    } else if Less(key(x), key(s[0])) {
      LessTotal(key(x), key(s[0]));
      forall y | y in s ensures !Less(key(y), key(x)) {
        FirstIsNotGreater(key, s, y);
        NotLessTransitive(key(x), key(s[0]), key(y));
      }
      OrderedCons(key, x, s);
    } else {
      assert s == [s[0]] + s[1..];
      InsertOrders(key, x, s[1..]);
      forall y | y in Insert(key, x, s[1..]) ensures !Less(key(y), key(s[0])) {
        InsertMember(key, x, s[1..], y);
        if y in s[1..] { FirstIsNotGreater(key, s, y); }
      }
      OrderedCons(key, s[0], Insert(key, x, s[1..]));
    }
  }

  /** Sorting orders any list and keeps its elements. */
  lemma {:induction false} SortOrders<T>(key: T -> string, s: seq<T>)
    ensures Ordered(key, SortBy(key, s)) && multiset(SortBy(key, s)) == multiset(s)
  {
    if s != [] {
      assert s == [s[0]] + s[1..];
      SortOrders(key, s[1..]);
      InsertOrders(key, s[0], SortBy(key, s[1..]));
    }
  }

  lemma FirstsAgree<T>(key: T -> string, a: seq<T>, b: seq<T>)
    requires Ordered(key, a) && Ordered(key, b) && a != [] && b != [] && b[0] in a && a[0] in b
    ensures key(a[0]) == key(b[0])
  {
    FirstIsNotGreater(key, a, b[0]);
    FirstIsNotGreater(key, b, a[0]);
    LessTotal(key(a[0]), key(b[0]));
  }

  /** Elements with the same key are the same. */
  ghost predicate KeysTell<T(!new)>(key: T -> string, s: seq<T>) {
    forall x, y :: x in s && y in s && key(x) == key(y) ==> x == y
  }

  lemma OrderedTail<T(!new)>(key: T -> string, s: seq<T>)
    requires Ordered(key, s) && s != []
    ensures Ordered(key, s[1..]) && multiset(s[1..]) == multiset(s) - multiset{s[0]} && s[0] in multiset(s)
    ensures KeysTell(key, s) ==> KeysTell(key, s[1..])
  {
    assert s == [s[0]] + s[1..];
  }

  lemma FirstsEqual<T(!new)>(key: T -> string, a: seq<T>, b: seq<T>)
    requires Ordered(key, a) && Ordered(key, b) && multiset(a) == multiset(b) && a != [] && b != []
    requires KeysTell(key, a)
    ensures a[0] == b[0]
  {
    assert b[0] in multiset(a) && a[0] in multiset(b);
    FirstsAgree(key, a, b);
  }

  /** Two ordered lists of the same elements are one when the keys tell the elements apart. */
  lemma {:induction false} OrderedUnique<T(!new)>(key: T -> string, a: seq<T>, b: seq<T>)
    requires Ordered(key, a) && Ordered(key, b) && multiset(a) == multiset(b) && KeysTell(key, a)
    ensures a == b
  {
    assert |a| == |b| by { assert |multiset(a)| == |a| && |multiset(b)| == |b|; }
    if a != [] {
      OrderedTail(key, a);
      OrderedTail(key, b);
      FirstsEqual(key, a, b);
      OrderedUnique(key, a[1..], b[1..]);
      assert a == [a[0]] + a[1..] && b == [b[0]] + b[1..];
    }
  }
}
