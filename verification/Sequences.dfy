/** Shared vocabulary: option and result types, and the list operations the other
    modules are specified with. */
module Sequences {
  datatype Option<+T> = None | Some(value: T)

  datatype Result<+T, +E> = Ok(value: T) | Err(error: E)

  function Min(a: int, b: int): int {
    if a <= b then a else b
  }

  function Map<A, B>(f: A -> B, s: seq<A>): (r: seq<B>)
    ensures |r| == |s|
    ensures forall i :: 0 <= i < |s| ==> r[i] == f(s[i])
  {
    seq(|s|, i requires 0 <= i < |s| => f(s[i]))
  }

  function Filter<A(!new)>(keep: A -> bool, s: seq<A>): (r: seq<A>)
    ensures |r| <= |s|
    ensures forall x :: x in r <==> x in s && keep(x)
  {
    if s == [] then [] else (if keep(s[0]) then [s[0]] else []) + Filter(keep, s[1..])
  }

  lemma {:induction false} FilterAppend<A(!new)>(keep: A -> bool, s: seq<A>, t: seq<A>)
    ensures Filter(keep, s + t) == Filter(keep, s) + Filter(keep, t)
  {
    if s == [] {
      assert s + t == t;
    } else {
      assert (s + t)[1..] == s[1..] + t;
      FilterAppend(keep, s[1..], t);
    }
  }

  lemma FilterOne<A(!new)>(keep: A -> bool, a: A)
    ensures Filter(keep, [a]) == if keep(a) then [a] else []
  {
    assert [a][1..] == [];
  }

  lemma {:induction false} FilterSame<A(!new)>(f: A -> bool, g: A -> bool, s: seq<A>)
    requires forall x :: x in s ==> f(x) == g(x)
    ensures Filter(f, s) == Filter(g, s)
  {
    if s != [] {
      assert s[0] in s;
      FilterSame(f, g, s[1..]);
    }
  }

  /** One more element collected, one fewer ahead. */
  lemma Regroup<A>(a: seq<A>, b: seq<A>, c: seq<A>)
    ensures a + (b + c) == (a + b) + c
  {
  }

  lemma EmptyParts<A>(a: seq<A>, b: seq<A>)
    requires a + b == []
    ensures a == [] && b == []
  {
    assert |a + b| == |a| + |b|;
  }

  lemma InEither<A>(a: seq<A>, b: seq<A>, x: A)
    ensures x in a + b <==> x in a || x in b
  {
  }

  function Flatten<A>(parts: seq<seq<A>>): seq<A> {
    if parts == [] then [] else parts[0] + Flatten(parts[1..])
  }

  lemma {:induction false} FlattenAppend<A>(a: seq<seq<A>>, b: seq<seq<A>>)
    ensures Flatten(a + b) == Flatten(a) + Flatten(b)
  {
    if a == [] {
      assert a + b == b;
    } else {
      assert (a + b)[1..] == a[1..] + b;
      FlattenAppend(a[1..], b);
    }
  }

  lemma FlattenOne<A>(a: seq<A>)
    ensures Flatten([a]) == a
  {
    assert [a][1..] == [];
    assert Flatten([a]) == a + Flatten([a][1..]);
  }

  lemma FlattenCons<A>(a: seq<A>, parts: seq<seq<A>>)
    ensures Flatten([a] + parts) == a + Flatten(parts)
  {
    assert ([a] + parts)[1..] == parts;
  }

  lemma FlattenSnoc<A>(parts: seq<seq<A>>, a: seq<A>)
    ensures Flatten(parts + [a]) == Flatten(parts) + a
  {
    FlattenAppend(parts, [a]);
    FlattenOne(a);
  }

  ghost predicate Distinct<A>(s: seq<A>) {
    forall i, j :: 0 <= i < j < |s| ==> s[i] != s[j]
  }

  lemma DistinctAppend<A>(a: seq<A>, b: seq<A>)
    ensures Distinct(a + b) <==> Distinct(a) && Distinct(b) && (forall x :: x in a ==> x !in b)
  {
    var s := a + b;
    if Distinct(s) {
      forall i, j | 0 <= i < j < |a| ensures a[i] != a[j] {
        assert s[i] == a[i] && s[j] == a[j];
      }
      forall i, j | 0 <= i < j < |b| ensures b[i] != b[j] {
        assert s[|a| + i] == b[i] && s[|a| + j] == b[j];
      }
      forall x | x in a ensures x !in b {
        var i :| 0 <= i < |a| && a[i] == x;
        forall j | 0 <= j < |b| ensures b[j] != x {
          assert s[i] == x && s[|a| + j] == b[j];
        }
      }
    }
    if Distinct(a) && Distinct(b) && forall x :: x in a ==> x !in b {
      forall i, j | 0 <= i < j < |s| ensures s[i] != s[j] {
        if i < |a| <= j {
          assert s[i] in a && s[j] == b[j - |a|];
        }
      }
    }
  }

  lemma MapMember<A, B>(f: A -> B, s: seq<A>, x: A)
    requires x in s
    ensures f(x) in Map(f, s)
  {
    var i :| 0 <= i < |s| && s[i] == x;
    assert Map(f, s)[i] == f(x);
  }

  lemma MapOrigin<A, B>(f: A -> B, s: seq<A>, y: B) returns (x: A)
    requires y in Map(f, s)
    ensures x in s && f(x) == y
  {
    var i :| 0 <= i < |s| && Map(f, s)[i] == y;
    x := s[i];
  }

  lemma MapAppend<A, B>(f: A -> B, a: seq<A>, b: seq<A>)
    ensures Map(f, a + b) == Map(f, a) + Map(f, b)
  {
  }

  /** Keeping some elements keeps their images distinct. */
  lemma {:induction false} FilterDistinct<A(!new), B>(f: A -> B, keep: A -> bool, s: seq<A>)
    requires Distinct(Map(f, s))
    ensures Distinct(Map(f, Filter(keep, s)))
  {
    if s != [] {
      var head, rest := [s[0]], s[1..];
      var kept := Filter(keep, rest);
      assert s == head + rest;
      DistinctMaps(f, head, rest);
      FilterDistinct(f, keep, rest);
      if keep(s[0]) {
        assert Filter(keep, s) == head + kept;
        DistinctMaps(f, head, kept);
      } else {
        assert Filter(keep, s) == kept;
      }
    }
  }

  lemma DistinctMaps<A, B>(f: A -> B, a: seq<A>, b: seq<A>)
    ensures Distinct(Map(f, a + b))
       <==> Distinct(Map(f, a)) && Distinct(Map(f, b)) && (forall x, y :: x in a && y in b ==> f(x) != f(y))
  {
    MapAppend(f, a, b);
    DistinctAppend(Map(f, a), Map(f, b));
    forall x, y | x in a && y in b ensures f(x) in Map(f, a) && f(y) in Map(f, b) {
      MapMember(f, a, x);
      MapMember(f, b, y);
    }
    if k :| k in Map(f, a) && k in Map(f, b) {
      var x := MapOrigin(f, a, k);
      var y := MapOrigin(f, b, k);
    }
  }
}
