/** Pass rates by lane and overall, the gate a run must pass against a baseline, and the gates
    a scoreboard is wrapped with when it becomes the next baseline. Rates are exact. */
module Scoreboard {
  import opened Sequences
  import opened Sorting
  import opened TaskResults

  const OVERALL := "overall"
  const CANONICAL := ["compaction", "tool-error", "instruction-fidelity", "delegation", "memory", "anchor"]

  type Task = TaskResult

  /** How many ran and how many of those passed. */
  datatype Tally = Tally(ran: nat, passed: nat)

  datatype LaneAggregate = LaneAggregate(lane: string, tally: Tally, rate: real)

  function Plus(a: Tally, b: Tally): Tally {
    Tally(a.ran + b.ran, a.passed + b.passed)
  }

  const NOTHING := Tally(0, 0)

  /** An infra error, or a status nobody knows, counts for nothing. */
  function Counts(t: Task): Tally {
    if t.status == Pass then Tally(1, 1) else if t.status == Fail then Tally(1, 0) else NOTHING
  }

  /** The first `n` tasks' tally, and their tally in one lane. */
  function Total(tasks: seq<Task>, n: nat): Tally
    requires n <= |tasks|
    decreases n
  {
    if n == 0 then NOTHING else Plus(Total(tasks, n - 1), Counts(tasks[n - 1]))
  }

  function OfLane(tasks: seq<Task>, lane: string, n: nat): Tally
    requires n <= |tasks|
    decreases n
  {
    if n == 0 then NOTHING
    else if tasks[n - 1].lane == lane then Plus(OfLane(tasks, lane, n - 1), Counts(tasks[n - 1]))
    else OfLane(tasks, lane, n - 1)
  }

  function PassRate(t: Tally): real {
    if t.ran == 0 then 0.0 else t.passed as real / t.ran as real
  }

  // ---------------------------------------------------------------- lane order

  function Itself(s: string): string {
    s
  }

  /** The first `n` lanes, each where it first occurs. */
  function Distincts(lanes: seq<string>, n: nat): seq<string>
    requires n <= |lanes|
    decreases n
  {
    if n == 0 then []
    else
      var before := Distincts(lanes, n - 1);
      if lanes[n - 1] in before then before else before + [lanes[n - 1]]
  }

  predicate NotCanonical(lane: string) {
    lane !in CANONICAL
  }

  function Among(lanes: seq<string>): string -> bool {
    (lane: string) => lane in lanes
  }

  function Others(lanes: seq<string>): seq<string> {
    Filter(NotCanonical, Distincts(lanes, |lanes|))
  }

  /** The canonical lanes present, in their order, then the others by name. */
  function Ordered(lanes: seq<string>): seq<string> {
    Filter(Among(lanes), CANONICAL) + SortBy(Itself, Others(lanes))
  }

  lemma {:induction false} DistinctsHas(lanes: seq<string>, n: nat)
    requires n <= |lanes|
    ensures Distinct(Distincts(lanes, n)) && forall x :: x in Distincts(lanes, n) <==> x in lanes[..n]
  {
    if n > 0 {
      DistinctsHas(lanes, n - 1);
      assert lanes[..n] == lanes[..n - 1] + [lanes[n - 1]];
      DistinctAppend(Distincts(lanes, n - 1), [lanes[n - 1]]);
    }
  }

  lemma AllDistincts(lanes: seq<string>)
    ensures Distinct(Distincts(lanes, |lanes|)) && forall x :: x in Distincts(lanes, |lanes|) <==> x in lanes
  {
    DistinctsHas(lanes, |lanes|);
    assert lanes[..|lanes|] == lanes;
  }

  /** The lanes outside the canonical six, in the order they first occur. */
  method CollectOthers(lanes: seq<string>) returns (present: set<string>, rest: seq<string>)
    ensures rest == Others(lanes) && forall x :: x in present <==> x in lanes
  {
    present, rest := {}, [];
    for i := 0 to |lanes|
      invariant forall x :: x in present <==> x in lanes[..i]
      invariant rest == Filter(NotCanonical, Distincts(lanes, i))
    {
      var lane := lanes[i];
      assert lanes[..i + 1] == lanes[..i] + [lane];
      DistinctsHas(lanes, i);
      if lane in present {
        continue;
      }
      present := present + {lane};
      FilterAppend(NotCanonical, Distincts(lanes, i), [lane]);
      FilterOne(NotCanonical, lane);
      if lane !in CANONICAL {
        rest := rest + [lane];
      }
    }
    assert lanes[..|lanes|] == lanes;
  }

  method KeepPresent(order: seq<string>, present: set<string>, ghost keep: string -> bool) returns (out: seq<string>)
    requires forall x :: x in order ==> (x in present <==> keep(x))
    ensures out == Filter(keep, order)
  {
    out := [];
    for i := 0 to |order|
      invariant out + Filter(keep, order[i..]) == Filter(keep, order)
    {
      ghost var rest := Filter(keep, order[i + 1..]);
      assert order[i..][0] == order[i] && order[i..][1..] == order[i + 1..] && order[i] in order;
      if order[i] in present {
        Regroup(out, [order[i]], rest);
        out := out + [order[i]];
      } else {
        assert Filter(keep, order[i..]) == rest;
      }
    }
    assert order[|order|..] == [];
  }

  method OrderedLanes(lanes: seq<string>) returns (out: seq<string>)
    ensures out == Ordered(lanes)
  {
    var present, rest := CollectOthers(lanes);
    out := KeepPresent(CANONICAL, present, Among(lanes));
    out := out + SortBy(Itself, rest);
  }

  lemma DistinctIsMapped(s: seq<string>)
    ensures Distinct(s) <==> Distinct(Map(Itself, s))
  {
    assert Map(Itself, s) == s;
  }

  /** The order lists every lane once: the canonical ones as a subsequence of the canonical
      order, then the others ascending. */
  lemma OrderedIsAPermutation(lanes: seq<string>)
    ensures Distinct(Ordered(lanes)) && forall x :: x in Ordered(lanes) <==> x in lanes
    ensures var others := SortBy(Itself, Others(lanes));
      Ordered(lanes) == Filter(Among(lanes), CANONICAL) + others
      && Ascending(Itself, others) && forall x :: x in others ==> x !in CANONICAL
  {
    var first, others := Filter(Among(lanes), CANONICAL), SortBy(Itself, Others(lanes));
    assert Distinct(first) by {
      CanonicalLanesDiffer();
      DistinctIsMapped(CANONICAL);
      FilterDistinct(Itself, Among(lanes), CANONICAL);
      DistinctIsMapped(first);
    }
    OthersAreTheOthers(lanes, others);
    DistinctAppend(first, others);
  }

  lemma OthersAreTheOthers(lanes: seq<string>, others: seq<string>)
    requires others == SortBy(Itself, Others(lanes))
    ensures Ascending(Itself, others) && Distinct(others)
    ensures forall x :: x in others <==> x in lanes && x !in CANONICAL
  {
    AllDistincts(lanes);
    OthersDiffer(lanes);
    SortAscends(Itself, Others(lanes));
    forall x ensures x in others <==> x in Others(lanes) { SortMember(Itself, Others(lanes), x); }
    AscendingDiffer(others);
  }

  lemma OthersDiffer(lanes: seq<string>)
    ensures Distinct(Map(Itself, Others(lanes)))
  {
    AllDistincts(lanes);
    DistinctIsMapped(Distincts(lanes, |lanes|));
    FilterDistinct(Itself, NotCanonical, Distincts(lanes, |lanes|));
  }

  lemma AscendingDiffer(s: seq<string>)
    requires Ascending(Itself, s)
    ensures Distinct(s)
  {
    forall i, j | 0 <= i < j < |s| ensures s[i] != s[j] {
      assert Less(Itself(s[i]), Itself(s[j]));
      LessTotal(s[i], s[i]);
    }
  }

  lemma CanonicalLanesDiffer()
    ensures Distinct(CANONICAL)
  {
    assert |CANONICAL[0]| == 10 && |CANONICAL[1]| == 10 && |CANONICAL[2]| == 20 && |CANONICAL[3]| == 10;
    assert |CANONICAL[4]| == 6 && |CANONICAL[5]| == 6;
    assert CANONICAL[0][0] == 'c' && CANONICAL[1][0] == 't' && CANONICAL[3][0] == 'd';
    assert CANONICAL[4][0] == 'm' && CANONICAL[5][0] == 'a';
  }

  /** It depends only on which lanes there are, not on the order a map gave them in. */
  lemma OrderedIgnoresOrder(a: seq<string>, b: seq<string>)
    requires forall x :: x in a <==> x in b
    ensures Ordered(a) == Ordered(b)
  {
    FilterSame(Among(a), Among(b), CANONICAL);
    AllDistincts(a);
    AllDistincts(b);
    OthersDiffer(a);
    OthersDiffer(b);
    SortIgnoresOrder(Itself, Others(a), Others(b));
  }

  // ---------------------------------------------------------------- building the scoreboard

  function LaneOf(t: Task): string {
    t.lane
  }

  function LanesOf(tasks: seq<Task>): seq<string> {
    Map(LaneOf, tasks)
  }

  function LaneTally(tasks: seq<Task>, lane: string): Tally {
    OfLane(tasks, lane, |tasks|)
  }

  function Overall(tasks: seq<Task>): Tally {
    Total(tasks, |tasks|)
  }

  function AggregateOf(tasks: seq<Task>): string -> LaneAggregate {
    (lane: string) => LaneAggregate(lane, LaneTally(tasks, lane), PassRate(LaneTally(tasks, lane)))
  }

  function Lanes(tasks: seq<Task>): seq<LaneAggregate> {
    Map(AggregateOf(tasks), Ordered(LanesOf(tasks)))
  }

  /** The first `n` tasks' tallies in the first `k` lanes, added up. */
  function SumOver(tasks: seq<Task>, n: nat, lanes: seq<string>, k: nat): Tally
    requires n <= |tasks| && k <= |lanes|
    decreases k
  {
    if k == 0 then NOTHING else Plus(SumOver(tasks, n, lanes, k - 1), OfLane(tasks, lanes[k - 1], n))
  }

  lemma {:induction false} SumOfNone(tasks: seq<Task>, lanes: seq<string>, k: nat)
    requires k <= |lanes|
    ensures SumOver(tasks, 0, lanes, k) == NOTHING
  {
    if k > 0 {
      SumOfNone(tasks, lanes, k - 1);
    }
  }

  ghost predicate Listed(lanes: seq<string>, k: nat, lane: string)
    requires k <= |lanes|
  {
    exists j :: 0 <= j < k && lanes[j] == lane
  }

  lemma OneMore(tasks: seq<Task>, n: nat, lane: string)
    requires n < |tasks|
    ensures tasks[n].lane == lane ==> OfLane(tasks, lane, n + 1) == Plus(OfLane(tasks, lane, n), Counts(tasks[n]))
    ensures tasks[n].lane != lane ==> OfLane(tasks, lane, n + 1) == OfLane(tasks, lane, n)
  {
  }

  lemma ListedOneMore(lanes: seq<string>, k: nat, lane: string)
    requires k < |lanes| && Distinct(lanes)
    ensures Listed(lanes, k + 1, lane) <==> lanes[k] == lane || Listed(lanes, k, lane)
    ensures lanes[k] == lane ==> !Listed(lanes, k, lane)
  {
    if j :| 0 <= j < k + 1 && lanes[j] == lane {
      assert j == k || Listed(lanes, k, lane);
    }
  }

  lemma {:induction false} SumOneMore(tasks: seq<Task>, n: nat, lanes: seq<string>, k: nat)
    requires n < |tasks| && k <= |lanes| && Distinct(lanes)
    ensures Listed(lanes, k, tasks[n].lane) ==>
      SumOver(tasks, n + 1, lanes, k) == Plus(SumOver(tasks, n, lanes, k), Counts(tasks[n]))
    ensures !Listed(lanes, k, tasks[n].lane) ==> SumOver(tasks, n + 1, lanes, k) == SumOver(tasks, n, lanes, k)
  {
    if k > 0 {
      var own, lane := tasks[n].lane, lanes[k - 1];
      var before, after := SumOver(tasks, n, lanes, k - 1), SumOver(tasks, n + 1, lanes, k - 1);
      SumOneMore(tasks, n, lanes, k - 1);
      assert Listed(lanes, k, own) <==> lane == own || Listed(lanes, k - 1, own) by {
        ListedOneMore(lanes, k - 1, own);
      }
      assert lane == own ==> !Listed(lanes, k - 1, own) by { ListedOneMore(lanes, k - 1, own); }
      OneMore(tasks, n, lane);
      assert SumOver(tasks, n, lanes, k) == Plus(before, OfLane(tasks, lane, n));
      assert SumOver(tasks, n + 1, lanes, k) == Plus(after, OfLane(tasks, lane, n + 1));
      PlusRegroups(before, OfLane(tasks, lane, n), Counts(tasks[n]));
    }
  }

  lemma PlusRegroups(a: Tally, b: Tally, c: Tally)
    ensures Plus(a, Plus(b, c)) == Plus(Plus(a, b), c) == Plus(Plus(a, c), b)
  {
  }

  /** Conservation: over any list naming once every lane in which something counts, the lane
      tallies add up to the total. */
  lemma {:induction false} LanesAddUp(tasks: seq<Task>, n: nat, lanes: seq<string>)
    requires n <= |tasks| && Distinct(lanes)
    requires forall i :: 0 <= i < n ==> tasks[i].lane in lanes || Counts(tasks[i]) == NOTHING
    ensures SumOver(tasks, n, lanes, |lanes|) == Total(tasks, n)
  {
    if n == 0 {
      SumOfNone(tasks, lanes, |lanes|);
    } else {
      LanesAddUp(tasks, n - 1, lanes);
      SumOneMore(tasks, n - 1, lanes, |lanes|);
      assert tasks[n - 1].lane in lanes ==> Listed(lanes, |lanes|, tasks[n - 1].lane);
    }
  }

  method Count(tally: Tally, t: Task) returns (r: Tally)
    ensures r == Plus(tally, Counts(t))
  {
    r := tally;
    if t.status == Pass {
      r := Tally(tally.ran + 1, tally.passed + 1);
    } else if t.status == Fail {
      r := Tally(tally.ran + 1, tally.passed);
    }
  }

  function At(byLane: map<string, Tally>, lane: string): Tally {
    if lane in byLane then byLane[lane] else NOTHING
  }

  ghost predicate Tallied(byLane: map<string, Tally>, tasks: seq<Task>, n: nat)
    requires n <= |tasks|
  {
    forall x {:trigger At(byLane, x)} :: At(byLane, x) == OfLane(tasks, x, n)
  }

  lemma TallyAt(byLane: map<string, Tally>, tasks: seq<Task>, n: nat, x: string)
    requires n < |tasks| && At(byLane, x) == OfLane(tasks, x, n)
    ensures var lane := tasks[n].lane;
      At(byLane[lane := Plus(At(byLane, lane), Counts(tasks[n]))], x) == OfLane(tasks, x, n + 1)
  {
  }

  lemma TallyOneMore(byLane: map<string, Tally>, tasks: seq<Task>, n: nat)
    requires n < |tasks| && Tallied(byLane, tasks, n)
    ensures var lane := tasks[n].lane;
      Tallied(byLane[lane := Plus(At(byLane, lane), Counts(tasks[n]))], tasks, n + 1)
  {
    var lane := tasks[n].lane;
    var after := byLane[lane := Plus(At(byLane, lane), Counts(tasks[n]))];
    forall x ensures At(after, x) == OfLane(tasks, x, n + 1) {
      assert At(byLane, x) == OfLane(tasks, x, n);
      TallyAt(byLane, tasks, n, x);
    }
  }

  lemma NothingAt(tasks: seq<Task>, n: nat, x: string)
    requires n < |tasks| && Counts(tasks[n]) == NOTHING
    ensures OfLane(tasks, x, n + 1) == OfLane(tasks, x, n)
  {
  }

  lemma TallyUnchanged(byLane: map<string, Tally>, tasks: seq<Task>, n: nat)
    requires n < |tasks| && Tallied(byLane, tasks, n) && Counts(tasks[n]) == NOTHING
    ensures Tallied(byLane, tasks, n + 1)
  {
    forall x ensures At(byLane, x) == OfLane(tasks, x, n + 1) {
      NothingAt(tasks, n, x);
    }
  }

  /** The map and the first-seen order of the lanes after `n` tasks. */
  ghost predicate Grouped(byLane: map<string, Tally>, order: seq<string>, tasks: seq<Task>, n: nat)
    requires n <= |tasks|
  {
    Tallied(byLane, tasks, n) && order == Distincts(LanesOf(tasks), n) && forall x :: x in byLane <==> x in order
  }

  method AddTask(byLane: map<string, Tally>, order: seq<string>, t: Task, ghost tasks: seq<Task>, ghost n: nat)
      returns (byLane': map<string, Tally>, order': seq<string>)
    requires n < |tasks| && t == tasks[n] && Grouped(byLane, order, tasks, n)
    ensures Grouped(byLane', order', tasks, n + 1)
  {
    TallyOneMore(byLane, tasks, n);
    assert LanesOf(tasks)[n] == t.lane;
    var tally := NOTHING;
    order' := order;
    if t.lane in byLane {
      tally := byLane[t.lane];
    } else {
      order' := order + [t.lane];
    }
    tally := Count(tally, t);
    byLane' := byLane[t.lane := tally];
  }

  method TallyLanes(tasks: seq<Task>) returns (byLane: map<string, Tally>, order: seq<string>)
    ensures Grouped(byLane, order, tasks, |tasks|)
  {
    byLane, order := map[], [];
    for i := 0 to |tasks|
      invariant Grouped(byLane, order, tasks, i)
    {
      byLane, order := AddTask(byLane, order, tasks[i], tasks, i);
    }
  }

  /** The overall tally is collected from the lanes, in whatever order the map gives them. */
  method SumTallies(ghost tasks: seq<Task>, byLane: map<string, Tally>) returns (overall: Tally)
    requires forall x :: x in byLane ==> byLane[x] == LaneTally(tasks, x)
    requires forall i :: 0 <= i < |tasks| ==> tasks[i].lane in byLane || Counts(tasks[i]) == NOTHING
    ensures overall == Overall(tasks)
  {
    overall := NOTHING;
    var todo := byLane.Keys;
    ghost var summed: seq<string> := [];
    while todo != {}
      invariant todo <= byLane.Keys && Distinct(summed)
      invariant forall x :: x in byLane ==> (x in summed <==> x !in todo)
      invariant overall == SumOver(tasks, |tasks|, summed, |summed|)
      decreases |todo|
    {
      var lane :| lane in todo;
      todo := todo - {lane};
      overall := Plus(overall, byLane[lane]);
      DistinctAppend(summed, [lane]);
      SumSnoc(tasks, summed, lane, |summed|);
      summed := summed + [lane];
    }
    LanesAddUp(tasks, |tasks|, summed);
  }

  lemma {:induction false} SumSnoc(tasks: seq<Task>, lanes: seq<string>, lane: string, k: nat)
    requires k <= |lanes|
    ensures SumOver(tasks, |tasks|, lanes + [lane], k) == SumOver(tasks, |tasks|, lanes, k)
  {
    if k > 0 {
      SumSnoc(tasks, lanes, lane, k - 1);
    }
  }

  method AggregateLanes(tasks: seq<Task>, sorted: seq<string>, byLane: map<string, Tally>)
      returns (lanes: seq<LaneAggregate>)
    requires forall x :: x in sorted ==> x in byLane && byLane[x] == LaneTally(tasks, x)
    ensures lanes == Map(AggregateOf(tasks), sorted)
  {
    lanes := [];
    for i := 0 to |sorted|
      invariant lanes == Map(AggregateOf(tasks), sorted[..i])
    {
      assert sorted[i] in sorted && sorted[..i + 1] == sorted[..i] + [sorted[i]];
      lanes := lanes + [LaneAggregate(sorted[i], byLane[sorted[i]], PassRate(byLane[sorted[i]]))];
    }
    assert sorted[..|sorted|] == sorted;
  }

  method BuildScoreboard(tasks: seq<Task>) returns (lanes: seq<LaneAggregate>, overall: LaneAggregate)
    ensures lanes == Lanes(tasks)
    ensures overall == LaneAggregate(OVERALL, Overall(tasks), PassRate(Overall(tasks)))
  {
    var byLane, order := TallyLanes(tasks);
    forall x | x in byLane ensures byLane[x] == LaneTally(tasks, x) {
      assert At(byLane, x) == byLane[x];
    }
    AllDistincts(LanesOf(tasks));
    OrderedIgnoresOrder(order, LanesOf(tasks));
    OrderedIsAPermutation(order);
    var sorted := OrderedLanes(order);
    lanes := AggregateLanes(tasks, sorted, byLane);
    forall i | 0 <= i < |tasks| ensures tasks[i].lane in byLane { MapMember(LaneOf, tasks, tasks[i]); }
    var sum := SumTallies(tasks, byLane);
    overall := LaneAggregate(OVERALL, sum, PassRate(sum));
  }

  // ---------------------------------------------------------------- the overall rate

  lemma {:induction false} PassedAtMostRan(tasks: seq<Task>, lane: string, n: nat)
    requires n <= |tasks|
    ensures OfLane(tasks, lane, n).passed <= OfLane(tasks, lane, n).ran
    ensures Total(tasks, n).passed <= Total(tasks, n).ran
  {
    if n > 0 {
      PassedAtMostRan(tasks, lane, n - 1);
    }
  }

  lemma RestAtMost(t: Tally, rest: Tally, p: nat, n: nat)
    requires n > 0 && t.passed <= t.ran && rest.passed <= rest.ran && t.ran + rest.ran > 0
    requires (rest.passed + t.passed) * n <= p * (rest.ran + t.ran)
    requires t.ran == 0 || t.passed * n > p * t.ran
    ensures rest.ran > 0 && rest.passed * n <= p * rest.ran
  {
    assert (rest.passed + t.passed) * n == rest.passed * n + t.passed * n;
    assert p * (rest.ran + t.ran) == p * rest.ran + p * t.ran;
  }

  lemma RestAtLeast(t: Tally, rest: Tally, p: nat, n: nat)
    requires n > 0 && t.passed <= t.ran && rest.passed <= rest.ran && t.ran + rest.ran > 0
    requires (rest.passed + t.passed) * n >= p * (rest.ran + t.ran)
    requires t.ran == 0 || t.passed * n < p * t.ran
    ensures rest.ran > 0 && rest.passed * n >= p * rest.ran
  {
    assert (rest.passed + t.passed) * n == rest.passed * n + t.passed * n;
    assert p * (rest.ran + t.ran) == p * rest.ran + p * t.ran;
  }

  /** Among lanes whose tallies add up to at most the rate p/n, one that ran is at most p/n. */
  lemma {:induction false} SomeLaneAtMost(tasks: seq<Task>, lanes: seq<string>, k: nat, p: nat, n: nat)
      returns (lane: string)
    requires k <= |lanes| && n > 0 && SumOver(tasks, |tasks|, lanes, k).ran > 0
    requires SumOver(tasks, |tasks|, lanes, k).passed * n <= p * SumOver(tasks, |tasks|, lanes, k).ran
    ensures lane in lanes && LaneTally(tasks, lane).ran > 0
    ensures LaneTally(tasks, lane).passed * n <= p * LaneTally(tasks, lane).ran
  {
    lane := lanes[k - 1];
    var t, rest := LaneTally(tasks, lane), SumOver(tasks, |tasks|, lanes, k - 1);
    PassedAtMostRan(tasks, lane, |tasks|);
    NoneRanNonePassed(tasks, lanes, k - 1);
    if t.ran == 0 || t.passed * n > p * t.ran {
      RestAtMost(t, rest, p, n);
      lane := SomeLaneAtMost(tasks, lanes, k - 1, p, n);
    }
  }

  lemma {:induction false} SomeLaneAtLeast(tasks: seq<Task>, lanes: seq<string>, k: nat, p: nat, n: nat)
      returns (lane: string)
    requires k <= |lanes| && n > 0 && SumOver(tasks, |tasks|, lanes, k).ran > 0
    requires SumOver(tasks, |tasks|, lanes, k).passed * n >= p * SumOver(tasks, |tasks|, lanes, k).ran
    ensures lane in lanes && LaneTally(tasks, lane).ran > 0
    ensures LaneTally(tasks, lane).passed * n >= p * LaneTally(tasks, lane).ran
  {
    lane := lanes[k - 1];
    var t, rest := LaneTally(tasks, lane), SumOver(tasks, |tasks|, lanes, k - 1);
    PassedAtMostRan(tasks, lane, |tasks|);
    NoneRanNonePassed(tasks, lanes, k - 1);
    if t.ran == 0 || t.passed * n < p * t.ran {
      RestAtLeast(t, rest, p, n);
      lane := SomeLaneAtLeast(tasks, lanes, k - 1, p, n);
    }
  }

  lemma {:induction false} NoneRanNonePassed(tasks: seq<Task>, lanes: seq<string>, k: nat)
    requires k <= |lanes|
    ensures SumOver(tasks, |tasks|, lanes, k).passed <= SumOver(tasks, |tasks|, lanes, k).ran
  {
    if k > 0 {
      NoneRanNonePassed(tasks, lanes, k - 1);
      PassedAtMostRan(tasks, lanes[k - 1], |tasks|);
    }
  }

  lemma RateAtMost(a: Tally, b: Tally)
    requires a.ran > 0 && b.ran > 0 && a.passed * b.ran <= b.passed * a.ran
    ensures PassRate(a) <= PassRate(b)
  {
    var x, y := PassRate(a), PassRate(b);
    var p, m, q, n := a.passed as real, a.ran as real, b.passed as real, b.ran as real;
    assert x * m == p && y * n == q;
    assert (a.passed * b.ran) as real == p * n && (b.passed * a.ran) as real == q * m;
    assert x * (m * n) == p * n && y * (m * n) == q * m;
    assert m * n > 0.0;
    Cancel(x, y, m * n);
  }

  lemma Cancel(x: real, y: real, z: real)
    requires z > 0.0 && x * z <= y * z
    ensures x <= y
  {
    assert (y - x) * z >= 0.0;
  }

  /** When anything ran, the overall rate lies between the lowest and the highest rate of the
      lanes that ran. */
  lemma OverallIsBetween(tasks: seq<Task>) returns (low: string, high: string)
    requires Overall(tasks).ran > 0
    ensures low in LanesOf(tasks) && LaneTally(tasks, low).ran > 0
    ensures high in LanesOf(tasks) && LaneTally(tasks, high).ran > 0
    ensures PassRate(LaneTally(tasks, low)) <= PassRate(Overall(tasks)) <= PassRate(LaneTally(tasks, high))
  {
    var lanes, all := Distincts(LanesOf(tasks), |tasks|), Overall(tasks);
    AllDistincts(LanesOf(tasks));
    forall i | 0 <= i < |tasks| ensures tasks[i].lane in lanes { MapMember(LaneOf, tasks, tasks[i]); }
    LanesAddUp(tasks, |tasks|, lanes);
    low := SomeLaneAtMost(tasks, lanes, |lanes|, all.passed, all.ran);
    high := SomeLaneAtLeast(tasks, lanes, |lanes|, all.passed, all.ran);
    RateAtMost(LaneTally(tasks, low), all);
    RateAtMost(all, LaneTally(tasks, high));
  }

  // ---------------------------------------------------------------- the gate

  /** The most a rate may fall and the least it must rise; a lane without a gate has the zero
      gate. */
  datatype Gate = Gate(maxRegression: real, minImprovement: real)

  datatype Row = Row(lane: string, baseline: real, run: real, delta: real, pass: bool)

  datatype Report = Report(pass: bool, rows: seq<Row>)

  datatype Baseline = Baseline(gates: map<string, Gate>, tasks: seq<Task>)

  function GateFor(gates: map<string, Gate>, lane: string): Gate {
    if lane in gates then gates[lane] else Gate(0.0, 0.0)
  }

  function Evaluate(lane: string, baseline: real, run: real, g: Gate): Row {
    Row(lane, baseline, run, run - baseline,
        !(run < baseline - g.maxRegression) && !(g.minImprovement > 0.0 && run < baseline + g.minImprovement))
  }

  function LaneRate(tasks: seq<Task>, lane: string): real {
    PassRate(LaneTally(tasks, lane))
  }

  /** The rate of every lane there is a row for. */
  function RatesOf(tasks: seq<Task>): map<string, real> {
    map lane | lane in LanesOf(tasks) :: LaneRate(tasks, lane)
  }

  /** One lane's row: a lane gone from the run fails whatever its gate says, and a new lane is
      measured against zero. */
  function RowFor(run: map<string, real>, base: map<string, real>, gates: map<string, Gate>, lane: string): Row {
    var before, now := if lane in base then base[lane] else 0.0, if lane in run then run[lane] else 0.0;
    if lane in base && lane !in run then Row(lane, before, 0.0, -before, false)
    else Evaluate(lane, before, now, GateFor(gates, lane))
  }

  /** The lanes' rows in lane order, then the overall row. */
  ghost predicate Compared(rows: seq<Row>, order: seq<string>, run: map<string, real>, base: map<string, real>,
                           gates: map<string, Gate>) {
    |rows| == |order| && forall i :: 0 <= i < |rows| ==> rows[i] == RowFor(run, base, gates, order[i])
  }

  function OverallRow(run: seq<Task>, b: Baseline): Row {
    Evaluate(OVERALL, PassRate(Overall(b.tasks)), PassRate(Overall(run)), GateFor(b.gates, OVERALL))
  }

  ghost predicate AllPass(rows: seq<Row>) {
    forall i :: 0 <= i < |rows| ==> rows[i].pass
  }

  ghost predicate Reports(report: Report, order: seq<string>, run: map<string, real>, base: map<string, real>,
                          gates: map<string, Gate>, overall: Row) {
    var n := |order|;
    |report.rows| == n + 1 && Compared(report.rows[..n], order, run, base, gates) && report.rows[n] == overall
    && (report.pass <==> AllPass(report.rows))
  }

  ghost predicate ReportOf(report: Report, run: seq<Task>, b: Baseline) {
    Reports(report, Ordered(LanesOf(run) + LanesOf(b.tasks)), RatesOf(run), RatesOf(b.tasks), b.gates,
            OverallRow(run, b))
  }

  method LaneRates(tasks: seq<Task>) returns (rates: map<string, real>)
    ensures rates == RatesOf(tasks)
  {
    var lanes, overall := BuildScoreboard(tasks);
    OrderedIsAPermutation(LanesOf(tasks));
    rates := RatesByLane(lanes, tasks, Ordered(LanesOf(tasks)));
  }

  method RatesByLane(lanes: seq<LaneAggregate>, ghost tasks: seq<Task>, ghost order: seq<string>)
      returns (rates: map<string, real>)
    requires lanes == Map(AggregateOf(tasks), order)
    ensures forall x :: x in rates <==> x in order
    ensures forall x :: x in rates ==> rates[x] == LaneRate(tasks, x)
  {
    rates := map[];
    for i := 0 to |lanes|
      invariant forall x :: x in rates <==> x in order[..i]
      invariant forall x :: x in rates ==> rates[x] == LaneRate(tasks, x)
    {
      assert lanes[i] == AggregateOf(tasks)(order[i]);
      assert order[..i + 1] == order[..i] + [order[i]];
      rates := rates[lanes[i].lane := lanes[i].rate];
    }
    assert order[..|lanes|] == order;
  }

  /** The keys of a set, in whatever order. */
  method Listing(keys: set<string>) returns (list: seq<string>)
    ensures forall x :: x in list <==> x in keys
  {
    list := [];
    var todo := keys;
    while todo != {}
      invariant todo <= keys && forall x :: x in list <==> x in keys - todo
      decreases |todo|
    {
      var x :| x in todo;
      list, todo := list + [x], todo - {x};
    }
  }

  method Compare(run: seq<Task>, b: Baseline) returns (report: Report)
    ensures ReportOf(report, run, b)
  {
    var runRates := LaneRates(run);
    var baseRates := LaneRates(b.tasks);
    var order := LaneOrder(runRates.Keys + baseRates.Keys, LanesOf(run) + LanesOf(b.tasks));
    report := CompareRates(runRates, baseRates, b.gates, order, OverallRow(run, b));
  }

  method CompareRates(run: map<string, real>, base: map<string, real>, gates: map<string, Gate>, order: seq<string>,
                      overall: Row) returns (report: Report)
    requires forall x :: x in order ==> x in run || x in base
    ensures Reports(report, order, run, base, gates, overall)
  {
    var rows, pass := CompareLanes(run, base, gates, order);
    report := Report(pass && overall.pass, rows + [overall]);
    assert report.rows[..|rows|] == rows;
  }

  method LaneOrder(keys: set<string>, ghost lanes: seq<string>) returns (order: seq<string>)
    requires forall x :: x in keys <==> x in lanes
    ensures order == Ordered(lanes) && forall x :: x in order ==> x in keys
  {
    var list := Listing(keys);
    OrderedIgnoresOrder(list, lanes);
    OrderedIsAPermutation(lanes);
    order := OrderedLanes(list);
  }

  method CompareLanes(run: map<string, real>, base: map<string, real>, gates: map<string, Gate>, order: seq<string>)
      returns (rows: seq<Row>, pass: bool)
    requires forall x :: x in order ==> x in run || x in base
    ensures Compared(rows, order, run, base, gates) && (pass <==> AllPass(rows))
  {
    rows, pass := [], true;
    for i := 0 to |order|
      invariant Compared(rows, order[..i], run, base, gates) && (pass <==> AllPass(rows))
    {
      assert order[i] in order && order[..i + 1] == order[..i] + [order[i]];
      var row := CompareLane(run, base, gates, order[i]);
      if !row.pass {
        pass := false;
      }
      rows := rows + [row];
    }
    assert order[..|order|] == order;
  }

  method CompareLane(run: map<string, real>, base: map<string, real>, gates: map<string, Gate>, lane: string)
      returns (row: Row)
    requires lane in run || lane in base
    ensures row == RowFor(run, base, gates, lane)
  {
    if lane in base && lane !in run {
      row := Row(lane, base[lane], 0.0, -base[lane], false);
    } else if lane !in base {
      row := Evaluate(lane, 0.0, run[lane], GateFor(gates, lane));
    } else {
      row := Evaluate(lane, base[lane], run[lane], GateFor(gates, lane));
    }
  }

  predicate Tolerant(g: Gate) {
    g.maxRegression >= 0.0 && g.minImprovement <= 0.0
  }

  lemma SameRates(report: Report, order: seq<string>, rates: map<string, real>, gates: map<string, Gate>, rate: real)
    requires forall x :: x in order <==> x in rates
    requires Reports(report, order, rates, rates, gates, Evaluate(OVERALL, rate, rate, GateFor(gates, OVERALL)))
    ensures report.pass
       <==> Tolerant(GateFor(gates, OVERALL)) && forall lane :: lane in rates ==> Tolerant(GateFor(gates, lane))
  {
    var rows, n := report.rows, |order|;
    forall i | 0 <= i < n
      ensures order[i] in rates && (rows[i].pass <==> Tolerant(GateFor(gates, order[i])))
    {
      assert order[i] in order && rows[i] == rows[..n][i];
      SelfRow(rates, gates, order[i]);
    }
    if AllPass(rows) {
      assert rows[n].pass;
      forall lane | lane in rates ensures Tolerant(GateFor(gates, lane)) {
        var i :| 0 <= i < n && order[i] == lane;
        assert rows[i].pass;
      }
    }
  }

  /** A run compared with itself passes exactly when every gate that applies tolerates no
      change. */
  lemma SelfComparison(report: Report, tasks: seq<Task>, gates: map<string, Gate>)
    requires ReportOf(report, tasks, Baseline(gates, tasks))
    ensures report.pass
       <==> Tolerant(GateFor(gates, OVERALL))
            && forall lane :: lane in LanesOf(tasks) ==> Tolerant(GateFor(gates, lane))
  {
    var order, rates := Ordered(LanesOf(tasks) + LanesOf(tasks)), RatesOf(tasks);
    OrderedIsAPermutation(LanesOf(tasks) + LanesOf(tasks));
    forall x ensures x in order <==> x in rates {}
    SameRates(report, order, rates, gates, PassRate(Overall(tasks)));
  }

  lemma SelfRow(rates: map<string, real>, gates: map<string, Gate>, lane: string)
    requires lane in rates
    ensures RowFor(rates, rates, gates, lane).pass <==> Tolerant(GateFor(gates, lane))
  {
  }

  // ---------------------------------------------------------------- what a passing report says

  function RanIn(lane: string): Task -> bool {
    (t: Task) => t.lane == lane && (t.status == Pass || t.status == Fail)
  }

  function PassedIn(lane: string): Task -> bool {
    (t: Task) => t.lane == lane && t.status == Pass
  }

  predicate Ran(t: Task) {
    t.status == Pass || t.status == Fail
  }

  predicate Passed(t: Task) {
    t.status == Pass
  }

  function One(yes: bool): nat {
    if yes then 1 else 0
  }

  lemma CountsOneMore(keep: Task -> bool, tasks: seq<Task>, n: nat)
    requires n < |tasks|
    ensures |Filter(keep, tasks[..n + 1])| == |Filter(keep, tasks[..n])| + One(keep(tasks[n]))
  {
    assert tasks[..n + 1] == tasks[..n] + [tasks[n]];
    FilterAppend(keep, tasks[..n], [tasks[n]]);
    FilterOne(keep, tasks[n]);
  }

  lemma LaneStep(tasks: seq<Task>, lane: string, n: nat)
    requires n < |tasks|
    ensures var t := OfLane(tasks, lane, n);
      OfLane(tasks, lane, n + 1)
      == Tally(t.ran + One(RanIn(lane)(tasks[n])), t.passed + One(PassedIn(lane)(tasks[n])))
  {
  }

  /** A tally counts the decided trials and those that passed. */
  lemma {:induction false} LaneCounts(tasks: seq<Task>, lane: string, n: nat)
    requires n <= |tasks|
    ensures OfLane(tasks, lane, n) == Tally(|Filter(RanIn(lane), tasks[..n])|, |Filter(PassedIn(lane), tasks[..n])|)
  {
    if n > 0 {
      LaneCounts(tasks, lane, n - 1);
      LaneStep(tasks, lane, n - 1);
      CountsOneMore(RanIn(lane), tasks, n - 1);
      CountsOneMore(PassedIn(lane), tasks, n - 1);
    }
  }

  lemma {:induction false} TotalCounts(tasks: seq<Task>, n: nat)
    requires n <= |tasks|
    ensures Total(tasks, n) == Tally(|Filter(Ran, tasks[..n])|, |Filter(Passed, tasks[..n])|)
  {
    if n > 0 {
      TotalCounts(tasks, n - 1);
      CountsOneMore(Ran, tasks, n - 1);
      CountsOneMore(Passed, tasks, n - 1);
    }
  }

  ghost predicate IsShare(rate: real, passed: nat, ran: nat) {
    if ran == 0 then rate == 0.0 else rate * ran as real == passed as real
  }

  /** A lane's rate is the share of its decided trials that passed, and the overall rate that of
      all of them. */
  lemma RatesAreShares(tasks: seq<Task>, lane: string)
    ensures IsShare(LaneRate(tasks, lane), |Filter(PassedIn(lane), tasks)|, |Filter(RanIn(lane), tasks)|)
    ensures IsShare(OverallRate(tasks), |Filter(Passed, tasks)|, |Filter(Ran, tasks)|)
  {
    assert tasks[..|tasks|] == tasks;
    assert LaneTally(tasks, lane) == Tally(|Filter(RanIn(lane), tasks)|, |Filter(PassedIn(lane), tasks)|) by {
      LaneCounts(tasks, lane, |tasks|);
    }
    assert Overall(tasks) == Tally(|Filter(Ran, tasks)|, |Filter(Passed, tasks)|) by { TotalCounts(tasks, |tasks|); }
    RateIsShare(LaneTally(tasks, lane));
    RateIsShare(Overall(tasks));
  }

  lemma RateIsShare(t: Tally)
    ensures IsShare(PassRate(t), t.passed, t.ran)
  {
  }

  function OverallRate(tasks: seq<Task>): real {
    PassRate(Overall(tasks))
  }

  lemma {:induction false} NoTasksNoTally(tasks: seq<Task>, lane: string, n: nat)
    requires lane !in LanesOf(tasks) && n <= |tasks|
    ensures OfLane(tasks, lane, n) == NOTHING
  {
    if n > 0 {
      assert LanesOf(tasks)[n - 1] == tasks[n - 1].lane;
      NoTasksNoTally(tasks, lane, n - 1);
    }
  }

  /** The run's rate has not fallen below what the gate allows, nor below what it asks for. */
  predicate Meets(run: real, baseline: real, g: Gate) {
    run >= baseline - g.maxRegression && (g.minImprovement > 0.0 ==> run >= baseline + g.minImprovement)
  }

  /** Measured by the gate registered under the name; without one nothing may fall. */
  ghost predicate MeetsGate(run: real, baseline: real, gates: map<string, Gate>, name: string) {
    if name in gates then Meets(run, baseline, gates[name]) else run >= baseline
  }

  lemma EvaluateMeets(lane: string, baseline: real, run: real, gates: map<string, Gate>)
    ensures Evaluate(lane, baseline, run, GateFor(gates, lane)).pass <==> MeetsGate(run, baseline, gates, lane)
  {
  }

  /** The lane is in the run and does well enough there; a new lane is measured against zero. */
  ghost predicate LanePasses(run: seq<Task>, b: Baseline, lane: string) {
    lane in LanesOf(run) && MeetsGate(LaneRate(run, lane), LaneRate(b.tasks, lane), b.gates, lane)
  }

  lemma NewLaneRate(tasks: seq<Task>, lane: string)
    requires lane !in LanesOf(tasks)
    ensures LaneRate(tasks, lane) == 0.0
  {
    NoTasksNoTally(tasks, lane, |tasks|);
  }

  lemma LaneRowPasses(run: seq<Task>, b: Baseline, lane: string)
    requires lane in LanesOf(run) || lane in LanesOf(b.tasks)
    ensures RowFor(RatesOf(run), RatesOf(b.tasks), b.gates, lane).pass <==> LanePasses(run, b, lane)
  {
    if lane !in LanesOf(b.tasks) { NewLaneRate(b.tasks, lane); }
    EvaluateMeets(lane, LaneRate(b.tasks, lane), LaneRate(run, lane), b.gates);
  }

  lemma AllPassIff(rows: seq<Row>, order: seq<string>, good: set<string>)
    requires |rows| == |order| + 1 && forall i :: 0 <= i < |order| ==> (rows[i].pass <==> order[i] in good)
    ensures AllPass(rows) <==> rows[|order|].pass && forall lane :: lane in order ==> lane in good
  {
    if AllPass(rows) {
      forall lane | lane in order ensures lane in good {
        var i :| 0 <= i < |order| && order[i] == lane;
        assert rows[i].pass;
      }
    }
    if i :| 0 <= i < |order| && !rows[i].pass { assert order[i] in order; }
  }

  lemma ReportPasses(report: Report, run: seq<Task>, b: Baseline)
    requires ReportOf(report, run, b)
    ensures report.pass
       <==> OverallRow(run, b).pass
            && forall lane :: lane in LanesOf(run) || lane in LanesOf(b.tasks) ==> LanePasses(run, b, lane)
  {
    var order, rows := Ordered(LanesOf(run) + LanesOf(b.tasks)), report.rows;
    assert forall x :: x in order <==> x in LanesOf(run) || x in LanesOf(b.tasks) by {
      OrderedIsAPermutation(LanesOf(run) + LanesOf(b.tasks));
    }
    var good := set lane | lane in order && LanePasses(run, b, lane);
    forall i | 0 <= i < |order| ensures rows[i].pass <==> order[i] in good {
      assert order[i] in order && rows[i] == rows[..|order|][i];
      LaneRowPasses(run, b, order[i]);
    }
    AllPassIff(rows, order, good);
  }

  /** A report passes exactly when no lane of the baseline is missing from the run, every lane's
      rate meets its gate, a new lane's against zero, and so does the overall rate. */
  lemma PassesIff(report: Report, run: seq<Task>, b: Baseline)
    requires ReportOf(report, run, b)
    ensures report.pass
       <==> (forall lane :: lane in LanesOf(b.tasks) ==> lane in LanesOf(run))
            && (forall lane :: lane in LanesOf(run) ==>
                  MeetsGate(LaneRate(run, lane), LaneRate(b.tasks, lane), b.gates, lane))
            && MeetsGate(OverallRate(run), OverallRate(b.tasks), b.gates, OVERALL)
    ensures forall lane :: lane !in LanesOf(b.tasks) ==> LaneRate(b.tasks, lane) == 0.0
  {
    ReportPasses(report, run, b);
    EvaluateMeets(OVERALL, OverallRate(b.tasks), OverallRate(run), b.gates);
    forall lane | lane !in LanesOf(b.tasks) ensures LaneRate(b.tasks, lane) == 0.0 { NewLaneRate(b.tasks, lane); }
  }

  lemma LaneRowTells(run: seq<Task>, b: Baseline, lane: string)
    requires lane in LanesOf(run) || lane in LanesOf(b.tasks)
    ensures var row := RowFor(RatesOf(run), RatesOf(b.tasks), b.gates, lane);
      row.lane == lane && row.baseline == LaneRate(b.tasks, lane) && row.run == LaneRate(run, lane)
      && row.delta == row.run - row.baseline
  {
    if lane !in LanesOf(b.tasks) { NewLaneRate(b.tasks, lane); }
    if lane !in LanesOf(run) { NewLaneRate(run, lane); }
  }

  lemma RowIs(report: Report, order: seq<string>, run: map<string, real>, base: map<string, real>,
              gates: map<string, Gate>, overall: Row, i: nat)
    requires Reports(report, order, run, base, gates, overall) && i < |report.rows|
    ensures |report.rows| == |order| + 1
    ensures report.rows[i] == if i < |order| then RowFor(run, base, gates, order[i]) else overall
  {
    if i < |order| { assert report.rows[i] == report.rows[..|order|][i]; }
  }

  /** What the rows tell: every lane of the run or the baseline once, in lane order, with its two
      rates and their difference, and then the same overall. */
  lemma RowsTell(report: Report, run: seq<Task>, b: Baseline, i: nat)
    requires ReportOf(report, run, b) && i < |report.rows|
    ensures var order, row := Ordered(LanesOf(run) + LanesOf(b.tasks)), report.rows[i];
      |report.rows| == |order| + 1 && row.delta == row.run - row.baseline
      && (if i < |order| then
            row.lane == order[i] && row.baseline == LaneRate(b.tasks, row.lane) && row.run == LaneRate(run, row.lane)
          else row.lane == OVERALL && row.baseline == OverallRate(b.tasks) && row.run == OverallRate(run))
  {
    var order := Ordered(LanesOf(run) + LanesOf(b.tasks));
    RowIs(report, order, RatesOf(run), RatesOf(b.tasks), b.gates, OverallRow(run, b), i);
    if i < |order| {
      assert order[i] in order;
      assert order[i] in LanesOf(run) || order[i] in LanesOf(b.tasks) by {
        OrderedIsAPermutation(LanesOf(run) + LanesOf(b.tasks));
      }
      LaneRowTells(run, b, order[i]);
    }
  }

  lemma MeetsHigher(low: real, high: real, baseline: real, gates: map<string, Gate>, name: string)
    requires low <= high && MeetsGate(low, baseline, gates, name)
    ensures MeetsGate(high, baseline, gates, name)
  {
  }

  /** A run of the same lanes that does no worse in any of them, and no worse overall, passes
      whenever the other does. */
  lemma RaisingKeepsPassing(low: Report, high: Report, worse: seq<Task>, better: seq<Task>, b: Baseline)
    requires ReportOf(low, worse, b) && ReportOf(high, better, b) && low.pass
    requires forall lane :: lane in LanesOf(worse) <==> lane in LanesOf(better)
    requires forall lane :: lane in LanesOf(better) ==> LaneRate(worse, lane) <= LaneRate(better, lane)
    requires OverallRate(worse) <= OverallRate(better)
    ensures high.pass
  {
    PassesIff(low, worse, b);
    PassesIff(high, better, b);
    forall lane | lane in LanesOf(better)
      ensures MeetsGate(LaneRate(better, lane), LaneRate(b.tasks, lane), b.gates, lane)
    {
      MeetsHigher(LaneRate(worse, lane), LaneRate(better, lane), LaneRate(b.tasks, lane), b.gates, lane);
    }
    MeetsHigher(OverallRate(worse), OverallRate(better), OverallRate(b.tasks), b.gates, OVERALL);
  }

  // ---------------------------------------------------------------- the next baseline's gates

  /** The least m from `m` on with m * m * b >= a. */
  function LeastRoot(a: int, b: int, m: nat): (r: nat)
    requires b >= 1
    ensures r >= m && r * r * b >= a
    ensures r > m ==> (r - 1) * (r - 1) * b < a
    decreases a - m
  {
    if m * m * b >= a then m
    else
      assert m < a by { RootBelow(a, b, m); }
      LeastRoot(a, b, m + 1)
  }

  lemma RootBelow(a: int, b: int, m: nat)
    requires b >= 1 && m * m * b < a
    ensures m < a
  {
    assert m * m >= m;
    assert m * m * b >= m * m;
  }

  /** Two standard deviations of a rate over n trials, in thousandths and rounded up: the least
      m with (m / 1000) squared at least 4 p (1 - p) / n. */
  function Milli(t: Tally): nat
    requires t.ran > 0
  {
    LeastRoot(4_000_000 * Spread(t), Cube(t.ran), 0)
  }

  function Spread(t: Tally): int {
    t.passed * (t.ran - t.passed)
  }

  function Cube(n: nat): (r: nat)
    ensures n > 0 ==> r > 0
  {
    n * n * n
  }

  /** A limit of zero is replaced by one tenth. */
  function FloorOf(m: nat): real {
    if m == 0 then 0.1 else m as real / 1000.0
  }

  function NoiseFloor(t: Tally): real
    requires t.ran > 0
  {
    FloorOf(Milli(t))
  }

  /** 4 p (1 - p) / n for the rate p of n trials. */
  function Noise(t: Tally): real
    requires t.ran > 0
  {
    4.0 * PassRate(t) * (1.0 - PassRate(t)) / t.ran as real
  }

  lemma NoiseScaled(t: Tally)
    requires t.ran > 0
    ensures Noise(t) * Cube(t.ran) as real == 4.0 * Spread(t) as real
  {
    var p, n, q := PassRate(t), t.ran as real, t.passed as real;
    assert p * n == q;
    assert Cube(t.ran) as real == n * n * n;
    assert Noise(t) * n == 4.0 * p * (1.0 - p);
    ScaleOut(Noise(t), p, n, q);
    assert Spread(t) as real == q * (n - q);
  }

  lemma ScaleOut(noise: real, p: real, n: real, q: real)
    requires p * n == q && noise * n == 4.0 * p * (1.0 - p)
    ensures noise * (n * n * n) == 4.0 * (q * (n - q))
  {
    assert noise * (n * n * n) == (noise * n) * (n * n);
    assert 4.0 * p * (1.0 - p) * (n * n) == 4.0 * ((p * n) * ((1.0 - p) * n));
    assert (1.0 - p) * n == n - p * n;
  }

  predicate Covers(limit: real, noise: real) {
    limit * limit >= noise
  }

  /** Comparing squared thousandths with a noise is comparing integers. */
  lemma Thousandths(m: nat, b: nat, a: nat, noise: real)
    requires b > 0 && noise * b as real == 4.0 * a as real
    ensures Covers(m as real / 1000.0, noise) <==> m * m * b >= 4_000_000 * a
  {
    var r, c := m as real, b as real;
    var f := (r / 1000.0) * (r / 1000.0);
    assert f * 1_000_000.0 == r * r;
    assert (m * m * b) as real == r * r * c;
    assert (1_000_000.0 * f) * c == r * r * c && (1_000_000.0 * noise) * c == 1_000_000.0 * (noise * c);
    assert 1_000_000.0 * (noise * c) == (4_000_000 * a) as real;
    if f >= noise {
      Scale(1_000_000.0 * noise, 1_000_000.0 * f, c);
    }
    if m * m * b >= 4_000_000 * a {
      assert (m * m * b) as real >= (4_000_000 * a) as real;
      Cancel(1_000_000.0 * noise, 1_000_000.0 * f, c);
    }
  }

  lemma RootFloor(b: nat, a: nat, noise: real)
    requires b > 0 && noise * b as real == 4.0 * a as real
    ensures var m := LeastRoot(4_000_000 * a, b, 0);
      FloorOf(m) > 0.0 && Covers(FloorOf(m), noise)
      && if a == 0 then FloorOf(m) == 0.1 && noise == 0.0 else m > 0 && !Covers((m - 1) as real / 1000.0, noise)
  {
    var m := LeastRoot(4_000_000 * a, b, 0);
    Thousandths(m, b, a, noise);
    if a == 0 {
      NoNoise(b, noise);
    } else {
      assert m > 0 || m * m * b == 0;
      Thousandths(m - 1, b, a, noise);
    }
  }

  lemma NoNoise(b: nat, noise: real)
    requires b > 0 && noise * b as real == 0.0
    ensures noise == 0.0 && LeastRoot(0, b, 0) == 0
  {
  }

  /** The derived regression limit is never below two standard deviations, and unless the rate
      is 0 or 1, when it is one tenth, no smaller number of thousandths would do. */
  lemma FloorCoversTheNoise(t: Tally)
    requires t.ran > 0 && t.passed <= t.ran
    ensures NoiseFloor(t) > 0.0 && Covers(NoiseFloor(t), Noise(t))
    ensures if t.passed == 0 || t.passed == t.ran then NoiseFloor(t) == 0.1 && Noise(t) == 0.0
            else Milli(t) > 0 && !Covers((Milli(t) - 1) as real / 1000.0, Noise(t))
  {
    NoiseScaled(t);
    SpreadIsZero(t);
    RootFloor(Cube(t.ran), Spread(t), Noise(t));
  }

  lemma SpreadIsZero(t: Tally)
    requires t.passed <= t.ran
    ensures Spread(t) >= 0 && (Spread(t) == 0 <==> t.passed == 0 || t.passed == t.ran)
  {
  }

  lemma Scale(x: real, y: real, z: real)
    requires x <= y && z > 0.0
    ensures x * z <= y * z
  {
    assert (y - x) * z >= 0.0;
  }

  /** How the wrapping script reads a row: any status but the two it knows is a failed trial. */
  function Graded(t: Task): Task {
    if t.status == Pass || t.status == InfraError then t else t.(status := Fail)
  }

  function GradedTasks(tasks: seq<Task>): seq<Task> {
    Map(Graded, tasks)
  }

  function NoiseGate(t: Tally): Gate
    requires t.ran > 0
  {
    Gate(NoiseFloor(t), 0.0)
  }

  /** The gates of a baseline wrapped from these rows. */
  ghost predicate Wrapped(gates: map<string, Gate>, tasks: seq<Task>) {
    var graded := GradedTasks(tasks);
    Overall(graded).ran > 0 && OVERALL in gates && gates[OVERALL] == NoiseGate(Overall(graded))
    && forall lane :: lane != OVERALL ==>
      (lane in gates <==> LaneTally(graded, lane).ran > 0)
      && (lane in gates ==> gates[lane] == NoiseGate(LaneTally(graded, lane)))
  }

  ghost predicate AllRan(lanes: map<string, Tally>) {
    forall x {:trigger At(lanes, x)} :: x in lanes ==> At(lanes, x).ran > 0
  }

  ghost predicate Trials(lanes: map<string, Tally>, graded: seq<Task>, n: nat)
    requires n <= |graded|
  {
    Tallied(lanes, graded, n) && AllRan(lanes)
  }

  lemma RanOneMore(lanes: map<string, Tally>, lane: string, tally: Tally)
    requires AllRan(lanes) && tally.ran > 0
    ensures AllRan(lanes[lane := tally])
  {
    var after := lanes[lane := tally];
    forall x | x in after ensures At(after, x).ran > 0 {
      assert x != lane ==> At(after, x) == At(lanes, x);
    }
  }

  method CountTrials(tasks: seq<Task>) returns (lanes: map<string, Tally>)
    ensures Trials(lanes, GradedTasks(tasks), |tasks|)
    ensures forall i :: 0 <= i < |tasks| ==> tasks[i].lane in lanes || tasks[i].status == InfraError
  {
    lanes := map[];
    ghost var graded := GradedTasks(tasks);
    for i := 0 to |tasks|
      invariant Trials(lanes, graded, i)
      invariant forall j :: 0 <= j < i ==> tasks[j].lane in lanes || tasks[j].status == InfraError
    {
      lanes := AddTrial(lanes, tasks[i], graded, i);
    }
  }

  /** One more row of the script's own count, unless it is an infra error. */
  method CountTrial(before: Tally, t: Task) returns (r: Tally)
    requires t.status != InfraError
    ensures r == Plus(before, Counts(Graded(t))) && r.ran > 0
  {
    r := Tally(before.ran + 1, before.passed + if t.status == Pass then 1 else 0);
  }

  method AddTrial(lanes: map<string, Tally>, t: Task, ghost graded: seq<Task>, ghost n: nat)
      returns (r: map<string, Tally>)
    requires n < |graded| && graded[n] == Graded(t) && Trials(lanes, graded, n)
    ensures Trials(r, graded, n + 1) && lanes.Keys <= r.Keys && (t.lane in r || t.status == InfraError)
  {
    if t.status == InfraError {
      TallyUnchanged(lanes, graded, n);
      return lanes;
    }
    TallyOneMore(lanes, graded, n);
    var tally := CountTrial(At(lanes, t.lane), t);
    RanOneMore(lanes, t.lane, tally);
    r := lanes[t.lane := tally];
  }

  function GatesOf(lanes: map<string, Tally>, total: Tally): map<string, Gate>
    requires AllRan(lanes) && total.ran > 0
  {
    (map lane | lane in lanes :: NoiseGate(At(lanes, lane)))[OVERALL := NoiseGate(total)]
  }

  lemma GatesAreWrapped(lanes: map<string, Tally>, tasks: seq<Task>)
    requires Trials(lanes, GradedTasks(tasks), |tasks|) && Overall(GradedTasks(tasks)).ran > 0
    ensures Wrapped(GatesOf(lanes, Overall(GradedTasks(tasks))), tasks)
  {
    var graded := GradedTasks(tasks);
    var gates := GatesOf(lanes, Overall(graded));
    forall lane | lane != OVERALL
      ensures lane in gates <==> LaneTally(graded, lane).ran > 0
      ensures lane in gates ==> gates[lane] == NoiseGate(LaneTally(graded, lane))
    {
      assert At(lanes, lane) == LaneTally(graded, lane);
    }
  }

  /** Nothing when no trial was run: the script then divides by zero. */
  method WrapBaseline(tasks: seq<Task>) returns (gates: Option<map<string, Gate>>)
    ensures match gates
            case Some(g) => Wrapped(g, tasks)
            case None => Overall(GradedTasks(tasks)).ran == 0
  {
    var lanes := CountTrials(tasks);
    ghost var graded := GradedTasks(tasks);
    forall x | x in lanes ensures lanes[x] == LaneTally(graded, x) {
      assert At(lanes, x) == lanes[x];
    }
    var total := SumTallies(graded, lanes);
    if total.ran == 0 {
      return None;
    }
    GatesAreWrapped(lanes, tasks);
    gates := Some(GatesOf(lanes, total));
  }

  /** A run passes against the baseline wrapped from it. */
  lemma OwnBaselinePasses(report: Report, tasks: seq<Task>, gates: map<string, Gate>)
    requires Wrapped(gates, tasks) && ReportOf(report, tasks, Baseline(gates, tasks))
    ensures report.pass
  {
    SelfComparison(report, tasks, gates);
    forall lane ensures Tolerant(GateFor(gates, lane)) {
      if lane in gates {
        var graded := GradedTasks(tasks);
        var t := if lane == OVERALL then Overall(graded) else LaneTally(graded, lane);
        PassedAtMostRan(graded, lane, |graded|);
        FloorCoversTheNoise(t);
      }
    }
  }

  /** The script and the scoreboard count alike when every status is one of the three. */
  lemma KnownStatusesCountAlike(tasks: seq<Task>)
    requires forall i :: 0 <= i < |tasks| ==> tasks[i].status in [Pass, Fail, InfraError]
    ensures GradedTasks(tasks) == tasks
  {
  }

  /** A row with any other status is one more failed trial to the script and nothing to the
      scoreboard. */
  lemma UnknownStatusCountsDifferently(tasks: seq<Task>, n: nat)
    requires n < |tasks| && tasks[n].status.Other?
    ensures var lane, graded := tasks[n].lane, GradedTasks(tasks);
      OfLane(tasks, lane, n + 1) == OfLane(tasks, lane, n)
      && OfLane(graded, lane, n + 1) == Plus(OfLane(graded, lane, n), Tally(1, 0))
  {
    NothingAt(tasks, n, tasks[n].lane);
    assert GradedTasks(tasks)[n] == tasks[n].(status := Fail);
    OneMore(GradedTasks(tasks), n, tasks[n].lane);
  }
}
