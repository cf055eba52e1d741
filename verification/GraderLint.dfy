/** The authoring lint over a task's answer checks, and the checks it must be sound for:
    a lint-clean task can be passed. */
module GraderLint {
  import opened Sequences
  import opened Text
  import opened Normalize

  datatype Check =
    | AnswerContains(anyOf: seq<seq<string>>, allOf: seq<seq<string>>)
    | AnswerNotContains(noneOf: seq<string>)
    | ToolCalled(argsContains: string, outputContains: string)
    | FileWrite(contentContains: string)
    | ApiEffect(jsonContains: seq<string>)
    | OtherCheck

  datatype Task = Task(summary: string, turns: seq<string>, verify: seq<Check>)

  // ---------------------------------------------------------------- grading an answer

  ghost predicate GroupHits(lower: char -> char, normalized: string, group: seq<string>) {
    exists alias :: alias in group && Contains(normalized, NormalizeText(lower, alias))
  }

  /** Whether the answer passes the check. Checks on anything but the answer do not
      constrain it. */
  ghost predicate Passes(lower: char -> char, c: Check, answer: string) {
    var normalized := NormalizeText(lower, answer);
    match c
    case AnswerContains(anyOf, allOf) =>
      (anyOf == [] || exists g :: g in anyOf && GroupHits(lower, normalized, g))
      && (forall g :: g in allOf ==> GroupHits(lower, normalized, g))
    case AnswerNotContains(noneOf) =>
      forall t :: t in noneOf ==> !Contains(normalized, NormalizeText(lower, t))
    case _ => true
  }

  method FindSubstring(s: string, sub: string) returns (found: bool)
    ensures found <==> Contains(s, sub)
  {
    found := false;
    var i := 0;
    while i + |sub| <= |s|
      invariant 0 <= i
      invariant forall j :: 0 <= j < i ==> !OccursAt(s, sub, j)
    {
      if s[i..i + |sub|] == sub {
        assert OccursAt(s, sub, i);
        return true;
      }
      i := i + 1;
    }
  }

  method CheckGroup(lower: char -> char, normalized: string, group: seq<string>) returns (hit: bool)
    ensures hit <==> GroupHits(lower, normalized, group)
  {
    for i := 0 to |group|
      invariant forall j :: 0 <= j < i ==> !Contains(normalized, NormalizeText(lower, group[j]))
    {
      hit := FindSubstring(normalized, NormalizeText(lower, group[i]));
      if hit {
        return;
      }
    }
    hit := false;
  }

  /** The any_of part: no groups at all, or one that hits. */
  method CheckAnyOf(lower: char -> char, normalized: string, groups: seq<seq<string>>) returns (ok: bool)
    ensures ok <==> groups == [] || exists g :: g in groups && GroupHits(lower, normalized, g)
  {
    ok := |groups| == 0;
    var i := 0;
    while i < |groups| && !ok
      invariant 0 <= i <= |groups|
      invariant ok ==> groups == [] || exists g :: g in groups && GroupHits(lower, normalized, g)
      invariant !ok ==> groups != [] && forall j :: 0 <= j < i ==> !GroupHits(lower, normalized, groups[j])
    {
      ok := CheckGroup(lower, normalized, groups[i]);
      assert groups[i] in groups;
      i := i + 1;
    }
  }

  /** The alias-group check. `missed` is the first all_of group without a hit when the
      any_of part passed. */
  method CheckAnswerContains(lower: char -> char, anyOf: seq<seq<string>>, allOf: seq<seq<string>>, answer: string)
    returns (pass: bool, missed: Option<nat>)
    ensures pass <==> Passes(lower, AnswerContains(anyOf, allOf), answer)
    ensures missed.Some? ==>
              missed.value < |allOf|
              && !GroupHits(lower, NormalizeText(lower, answer), allOf[missed.value])
              && forall j :: 0 <= j < missed.value ==> GroupHits(lower, NormalizeText(lower, answer), allOf[j])
  {
    var normalized := NormalizeText(lower, answer);
    missed := None;
    var anyOK := CheckAnyOf(lower, normalized, anyOf);
    if !anyOK {
      return false, None;
    }
    for gi := 0 to |allOf|
      invariant forall j :: 0 <= j < gi ==> GroupHits(lower, normalized, allOf[j])
    {
      var hit := CheckGroup(lower, normalized, allOf[gi]);
      if !hit {
        return false, Some(gi);
      }
    }
    pass := true;
  }

  /** The forbidden tokens the answer holds, in order; it passes when there are none. */
  method CheckAnswerNotContains(lower: char -> char, noneOf: seq<string>, answer: string)
    returns (pass: bool, leaked: seq<string>)
    ensures pass <==> Passes(lower, AnswerNotContains(noneOf), answer)
    ensures forall t :: t in leaked <==> t in noneOf && Contains(NormalizeText(lower, answer), NormalizeText(lower, t))
  {
    var normalized := NormalizeText(lower, answer);
    leaked := [];
    for i := 0 to |noneOf|
      invariant forall t :: t in leaked <==> t in noneOf[..i] && Contains(normalized, NormalizeText(lower, t))
    {
      assert noneOf[..i + 1] == noneOf[..i] + [noneOf[i]];
      var found := FindSubstring(normalized, NormalizeText(lower, noneOf[i]));
      if found {
        leaked := leaked + [noneOf[i]];
      }
    }
    assert noneOf[..|noneOf|] == noneOf;
    pass := leaked == [];
    if !pass {
      assert leaked[0] in noneOf;
    } else {
      forall t | t in noneOf ensures !Contains(normalized, NormalizeText(lower, t)) {
        assert t !in leaked;
      }
    }
  }

  // ---------------------------------------------------------------- what the lint reports

  datatype Part = Whole | AnyOf | AllOf | NoneOf | Args | Output | Content | Json

  /** A field of the task: check number, part of the check, indices into that part. */
  datatype Path = Path(check: nat, part: Part, at: seq<nat>)

  datatype Problem =
    | NoAliasGroup | EmptyGroup | EmptyAlias | NoForbiddenToken | EmptyToken
    | TokenInsideAlias(alias: Ref)
    | LiteralInTurn(turn: nat)
    | LiteralInSummary

  datatype Issue = Issue(where: Path, problem: Problem)

  /** A string of a check, with the field it stands in. */
  datatype Ref = Ref(value: string, where: Path)

  const MIN_LITERAL_RUNES := 12

  function ItemRefs(ci: nat, part: Part, prefix: seq<nat>, items: seq<string>, from: nat): seq<Ref>
    decreases |items| - from
  {
    if from >= |items| then []
    else [Ref(items[from], Path(ci, part, prefix + [from]))] + ItemRefs(ci, part, prefix, items, from + 1)
  }

  function GroupRefs(ci: nat, part: Part, groups: seq<seq<string>>, from: nat): seq<Ref>
    decreases |groups| - from
  {
    if from >= |groups| then []
    else ItemRefs(ci, part, [from], groups[from], 0) + GroupRefs(ci, part, groups, from + 1)
  }

  datatype Sort = Aliases | Tokens | Literals

  /** The strings of one check that a lint pass looks at. */
  function RefsOf(sort: Sort, ci: nat, c: Check): seq<Ref> {
    match (sort, c)
    case (Aliases, AnswerContains(anyOf, allOf)) => GroupRefs(ci, AnyOf, anyOf, 0) + GroupRefs(ci, AllOf, allOf, 0)
    case (Literals, AnswerContains(anyOf, allOf)) => GroupRefs(ci, AnyOf, anyOf, 0) + GroupRefs(ci, AllOf, allOf, 0)
    case (Tokens, AnswerNotContains(noneOf)) => ItemRefs(ci, NoneOf, [], noneOf, 0)
    case (Literals, AnswerNotContains(noneOf)) => ItemRefs(ci, NoneOf, [], noneOf, 0)
    case (Literals, ToolCalled(a, o)) => [Ref(a, Path(ci, Args, [])), Ref(o, Path(ci, Output, []))]
    case (Literals, FileWrite(t)) => [Ref(t, Path(ci, Content, []))]
    case (Literals, ApiEffect(probes)) => ItemRefs(ci, Json, [], probes, 0)
    case _ => []
  }

  function Refs(sort: Sort, verify: seq<Check>, from: nat): seq<Ref>
    decreases |verify| - from
  {
    if from >= |verify| then [] else RefsOf(sort, from, verify[from]) + Refs(sort, verify, from + 1)
  }

  // ---------------------------------------------------------------- per-check issues

  function AliasIssues(ci: nat, part: Part, gi: nat, group: seq<string>, from: nat): seq<Issue>
    decreases |group| - from
  {
    if from >= |group| then []
    else (if Blank(group[from]) then [Issue(Path(ci, part, [gi, from]), EmptyAlias)] else [])
         + AliasIssues(ci, part, gi, group, from + 1)
  }

  function GroupIssues(ci: nat, part: Part, groups: seq<seq<string>>, from: nat): seq<Issue>
    decreases |groups| - from
  {
    if from >= |groups| then []
    else OneGroup(ci, part, from, groups[from]) + GroupIssues(ci, part, groups, from + 1)
  }

  function OneGroup(ci: nat, part: Part, gi: nat, group: seq<string>): seq<Issue> {
    if |group| == 0 then [Issue(Path(ci, part, [gi]), EmptyGroup)] else AliasIssues(ci, part, gi, group, 0)
  }

  function TokenIssues(ci: nat, tokens: seq<string>, from: nat): seq<Issue>
    decreases |tokens| - from
  {
    if from >= |tokens| then []
    else (if Blank(tokens[from]) then [Issue(Path(ci, NoneOf, [from]), EmptyToken)] else [])
         + TokenIssues(ci, tokens, from + 1)
  }

  function CheckIssues(ci: nat, c: Check): seq<Issue> {
    match c
    case AnswerContains(anyOf, allOf) =>
      (if anyOf == [] && allOf == [] then [Issue(Path(ci, Whole, []), NoAliasGroup)] else [])
      + GroupIssues(ci, AnyOf, anyOf, 0) + GroupIssues(ci, AllOf, allOf, 0)
    case AnswerNotContains(noneOf) =>
      (if noneOf == [] then [Issue(Path(ci, NoneOf, []), NoForbiddenToken)] else []) + TokenIssues(ci, noneOf, 0)
    case _ => []
  }

  method LintAliases(ci: nat, part: Part, gi: nat, group: seq<string>) returns (issues: seq<Issue>)
    ensures issues == AliasIssues(ci, part, gi, group, 0)
  {
    issues := [];
    for ai := 0 to |group|
      invariant AliasIssues(ci, part, gi, group, 0) == issues + AliasIssues(ci, part, gi, group, ai)
    {
      var found := if TrimSpace(group[ai]) == "" then [Issue(Path(ci, part, [gi, ai]), EmptyAlias)] else [];
      Regroup(issues, found, AliasIssues(ci, part, gi, group, ai + 1));
      issues := issues + found;
    }
  }

  method LintGroup(ci: nat, part: Part, gi: nat, group: seq<string>) returns (issues: seq<Issue>)
    ensures issues == OneGroup(ci, part, gi, group)
  {
    if |group| == 0 {
      issues := [Issue(Path(ci, part, [gi]), EmptyGroup)];
    } else {
      issues := LintAliases(ci, part, gi, group);
    }
  }

  method LintAliasGroups(ci: nat, part: Part, groups: seq<seq<string>>) returns (issues: seq<Issue>)
    ensures issues == GroupIssues(ci, part, groups, 0)
  {
    issues := [];
    for gi := 0 to |groups|
      invariant GroupIssues(ci, part, groups, 0) == issues + GroupIssues(ci, part, groups, gi)
    {
      var found := LintGroup(ci, part, gi, groups[gi]);
      ghost var rest := GroupIssues(ci, part, groups, gi + 1);
      assert GroupIssues(ci, part, groups, gi) == found + rest;
      Regroup(issues, found, rest);
      issues := issues + found;
    }
  }

  method LintTokens(ci: nat, tokens: seq<string>) returns (issues: seq<Issue>)
    ensures issues == TokenIssues(ci, tokens, 0)
  {
    issues := [];
    for i := 0 to |tokens|
      invariant TokenIssues(ci, tokens, 0) == issues + TokenIssues(ci, tokens, i)
    {
      var found := if TrimSpace(tokens[i]) == "" then [Issue(Path(ci, NoneOf, [i]), EmptyToken)] else [];
      Regroup(issues, found, TokenIssues(ci, tokens, i + 1));
      issues := issues + found;
    }
  }

  method LintCheck(ci: nat, c: Check) returns (issues: seq<Issue>)
    ensures issues == CheckIssues(ci, c)
  {
    issues := [];
    match c {
      case AnswerContains(anyOf, allOf) =>
        if |anyOf| == 0 && |allOf| == 0 {
          issues := issues + [Issue(Path(ci, Whole, []), NoAliasGroup)];
        }
        var a := LintAliasGroups(ci, AnyOf, anyOf);
        var b := LintAliasGroups(ci, AllOf, allOf);
        issues := issues + a + b;
      case AnswerNotContains(noneOf) =>
        if |noneOf| == 0 {
          issues := issues + [Issue(Path(ci, NoneOf, []), NoForbiddenToken)];
        }
        var found := LintTokens(ci, noneOf);
        issues := issues + found;
      case _ =>
    }
  }

  // ---------------------------------------------------------------- grader consistency

  /** The references worth looking at: white space alone is reported elsewhere. */
  function Worded(refs: seq<Ref>): seq<Ref> {
    if refs == [] then []
    else (if Blank(refs[0].value) then [] else [refs[0]]) + Worded(refs[1..])
  }

  ghost function Clashes(lower: char -> char, token: Ref, aliases: seq<Ref>): seq<Issue> {
    if aliases == [] then []
    else (if Contains(NormalizeText(lower, aliases[0].value), NormalizeText(lower, token.value))
          then [Issue(token.where, TokenInsideAlias(aliases[0]))] else [])
         + Clashes(lower, token, aliases[1..])
  }

  ghost function ConsistencyIssues(lower: char -> char, tokens: seq<Ref>, aliases: seq<Ref>): seq<Issue> {
    if tokens == [] then []
    else (if NormalizeText(lower, tokens[0].value) == "" then [] else Clashes(lower, tokens[0], aliases))
         + ConsistencyIssues(lower, tokens[1..], aliases)
  }

  method CollectItems(ci: nat, part: Part, prefix: seq<nat>, items: seq<string>) returns (refs: seq<Ref>)
    ensures refs == ItemRefs(ci, part, prefix, items, 0)
  {
    refs := [];
    for i := 0 to |items|
      invariant ItemRefs(ci, part, prefix, items, 0) == refs + ItemRefs(ci, part, prefix, items, i)
    {
      var item := [Ref(items[i], Path(ci, part, prefix + [i]))];
      Regroup(refs, item, ItemRefs(ci, part, prefix, items, i + 1));
      refs := refs + item;
    }
  }

  method CollectGroups(ci: nat, part: Part, groups: seq<seq<string>>) returns (refs: seq<Ref>)
    ensures refs == GroupRefs(ci, part, groups, 0)
  {
    refs := [];
    for gi := 0 to |groups|
      invariant GroupRefs(ci, part, groups, 0) == refs + GroupRefs(ci, part, groups, gi)
    {
      var items := CollectItems(ci, part, [gi], groups[gi]);
      Regroup(refs, items, GroupRefs(ci, part, groups, gi + 1));
      refs := refs + items;
    }
  }

  method CollectCheck(sort: Sort, ci: nat, c: Check) returns (found: seq<Ref>)
    ensures found == RefsOf(sort, ci, c)
  {
    match c
    case AnswerContains(anyOf, allOf) =>
      found := [];
      if sort != Tokens {
        var a := CollectGroups(ci, AnyOf, anyOf);
        var b := CollectGroups(ci, AllOf, allOf);
        found := a + b;
      }
    case AnswerNotContains(noneOf) =>
      found := [];
      if sort != Aliases {
        found := CollectItems(ci, NoneOf, [], noneOf);
      }
    case ApiEffect(probes) =>
      found := [];
      if sort == Literals {
        found := CollectItems(ci, Json, [], probes);
      }
    case ToolCalled(_, _) =>
      found := RefsOf(sort, ci, c);
    case FileWrite(_) =>
      found := RefsOf(sort, ci, c);
    case OtherCheck =>
      found := [];
  }

  method CollectRefs(sort: Sort, verify: seq<Check>) returns (refs: seq<Ref>)
    ensures refs == Refs(sort, verify, 0)
  {
    refs := [];
    for ci := 0 to |verify|
      invariant Refs(sort, verify, 0) == refs + Refs(sort, verify, ci)
    {
      var found := CollectCheck(sort, ci, verify[ci]);
      Regroup(refs, found, Refs(sort, verify, ci + 1));
      refs := refs + found;
    }
  }

  lemma WordedNext(refs: seq<Ref>, i: nat)
    requires i < |refs|
    ensures Worded(refs[i..]) == (if Blank(refs[i].value) then [] else [refs[i]]) + Worded(refs[i + 1..])
  {
    assert refs[i..][1..] == refs[i + 1..];
  }

  method KeepWorded(refs: seq<Ref>) returns (kept: seq<Ref>)
    ensures kept == Worded(refs)
  {
    kept := [];
    assert refs[0..] == refs;
    for i := 0 to |refs|
      invariant Worded(refs) == kept + Worded(refs[i..])
    {
      var item := if Blank(refs[i].value) then [] else [refs[i]];
      WordedNext(refs, i);
      Regroup(kept, item, Worded(refs[i + 1..]));
      kept := kept + item;
    }
    assert Worded(refs[|refs|..]) == [];
  }

  method FindClashes(lower: char -> char, token: Ref, aliases: seq<Ref>) returns (issues: seq<Issue>)
    ensures issues == Clashes(lower, token, aliases)
  {
    issues := [];
    var needle := NormalizeText(lower, token.value);
    assert aliases[0..] == aliases;
    for ai := 0 to |aliases|
      invariant Clashes(lower, token, aliases) == issues + Clashes(lower, token, aliases[ai..])
    {
      var inside := FindSubstring(NormalizeText(lower, aliases[ai].value), needle);
      var found := if inside then [Issue(token.where, TokenInsideAlias(aliases[ai]))] else [];
      assert aliases[ai..][1..] == aliases[ai + 1..];
      Regroup(issues, found, Clashes(lower, token, aliases[ai + 1..]));
      issues := issues + found;
    }
    assert Clashes(lower, token, aliases[|aliases|..]) == [];
  }

  method LintGraderConsistency(lower: char -> char, t: Task) returns (issues: seq<Issue>)
    ensures issues == ConsistencyIssues(lower, Worded(Refs(Tokens, t.verify, 0)), Worded(Refs(Aliases, t.verify, 0)))
  {
    var tokens := CollectRefs(Tokens, t.verify);
    var forbidden := KeepWorded(tokens);
    var all := CollectRefs(Aliases, t.verify);
    var aliases := KeepWorded(all);
    issues := [];
    assert forbidden[0..] == forbidden;
    for fi := 0 to |forbidden|
      invariant ConsistencyIssues(lower, forbidden, aliases)
             == issues + ConsistencyIssues(lower, forbidden[fi..], aliases)
    {
      assert forbidden[fi..][1..] == forbidden[fi + 1..];
      var found: seq<Issue> := [];
      if NormalizeText(lower, forbidden[fi].value) != "" {
        found := FindClashes(lower, forbidden[fi], aliases);
      }
      Regroup(issues, found, ConsistencyIssues(lower, forbidden[fi + 1..], aliases));
      issues := issues + found;
    }
    assert ConsistencyIssues(lower, forbidden[|forbidden|..], aliases) == [];
  }

  // ---------------------------------------------------------------- unintervention

  /** The leak of one literal into the prompt: the first turn that holds it, else the
      summary. */
  ghost function LeakIssues(lower: char -> char, lit: Ref, t: Task, from: nat): seq<Issue>
    decreases |t.turns| - from
  {
    var needle := NormalizeText(lower, lit.value);
    if from < |t.turns| then
      if Contains(NormalizeText(lower, t.turns[from]), needle) then [Issue(lit.where, LiteralInTurn(from))]
      else LeakIssues(lower, lit, t, from + 1)
    else if Contains(NormalizeText(lower, t.summary), needle) then [Issue(lit.where, LiteralInSummary)]
    else []
  }

  /** Long enough, and worded enough, to be looked for in the prompt. */
  predicate Probing(lower: char -> char, literal: string) {
    |literal| >= MIN_LITERAL_RUNES && NormalizeText(lower, literal) != ""
  }

  ghost function UninterventionIssues(lower: char -> char, literals: seq<Ref>, t: Task): seq<Issue> {
    if literals == [] then []
    else (if Probing(lower, literals[0].value) then LeakIssues(lower, literals[0], t, 0) else [])
         + UninterventionIssues(lower, literals[1..], t)
  }

  method FindLeak(lower: char -> char, lit: Ref, t: Task) returns (issues: seq<Issue>)
    ensures issues == LeakIssues(lower, lit, t, 0)
  {
    var needle := NormalizeText(lower, lit.value);
    for ti := 0 to |t.turns|
      invariant LeakIssues(lower, lit, t, 0) == LeakIssues(lower, lit, t, ti)
    {
      var found := FindSubstring(NormalizeText(lower, t.turns[ti]), needle);
      if found {
        return [Issue(lit.where, LiteralInTurn(ti))];
      }
    }
    var inSummary := FindSubstring(NormalizeText(lower, t.summary), needle);
    issues := if inSummary then [Issue(lit.where, LiteralInSummary)] else [];
  }

  method LintUnintervention(lower: char -> char, t: Task) returns (issues: seq<Issue>)
    ensures issues == UninterventionIssues(lower, Refs(Literals, t.verify, 0), t)
  {
    var literals := CollectRefs(Literals, t.verify);
    issues := [];
    assert literals[0..] == literals;
    for i := 0 to |literals|
      invariant UninterventionIssues(lower, literals, t) == issues + UninterventionIssues(lower, literals[i..], t)
    {
      assert literals[i..][1..] == literals[i + 1..];
      var found: seq<Issue> := [];
      if Probing(lower, literals[i].value) {
        found := FindLeak(lower, literals[i], t);
      }
      Regroup(issues, found, UninterventionIssues(lower, literals[i + 1..], t));
      issues := issues + found;
    }
    assert UninterventionIssues(lower, literals[|literals|..], t) == [];
  }

  // ---------------------------------------------------------------- what is reported, exactly

  /** The text stands in that field of the checks: an alias, a forbidden token, or what a tool
      call, a written file or an API effect must show. */
  ghost predicate StandsAt(verify: seq<Check>, w: Path, v: string) {
    w.check < |verify|
    && match verify[w.check]
       case AnswerContains(anyOf, allOf) =>
         (w.part == AnyOf && AliasAt(anyOf, w.at, v)) || (w.part == AllOf && AliasAt(allOf, w.at, v))
       case AnswerNotContains(noneOf) => w.part == NoneOf && ItemAt(noneOf, w.at, v)
       case ToolCalled(args, output) =>
         w.at == [] && ((w.part == Args && v == args) || (w.part == Output && v == output))
       case FileWrite(content) => w.part == Content && w.at == [] && v == content
       case ApiEffect(probes) => w.part == Json && ItemAt(probes, w.at, v)
       case OtherCheck => false
  }

  predicate ItemAt(items: seq<string>, at: seq<nat>, v: string) {
    |at| == 1 && at[0] < |items| && items[at[0]] == v
  }

  predicate AliasAt(groups: seq<seq<string>>, at: seq<nat>, v: string) {
    |at| == 2 && at[0] < |groups| && at[1] < |groups[at[0]]| && groups[at[0]][at[1]] == v
  }

  predicate OfSort(sort: Sort, part: Part) {
    match sort
    case Aliases => part == AnyOf || part == AllOf
    case Tokens => part == NoneOf
    case Literals => true
  }

  lemma {:induction false} ItemRefsIff(ci: nat, part: Part, prefix: seq<nat>, items: seq<string>, from: nat, r: Ref)
    ensures r in ItemRefs(ci, part, prefix, items, from)
       <==> exists i :: from <= i < |items| && r == Ref(items[i], Path(ci, part, prefix + [i]))
    decreases |items| - from
  {
    if from < |items| {
      var first, rest := Ref(items[from], Path(ci, part, prefix + [from])), ItemRefs(ci, part, prefix, items, from + 1);
      ItemRefsIff(ci, part, prefix, items, from + 1, r);
      assert r in [first] + rest <==> r == first || r in rest;
    }
  }

  lemma PlainItemRefsIff(ci: nat, part: Part, items: seq<string>, r: Ref)
    ensures r in ItemRefs(ci, part, [], items, 0)
       <==> r.where.check == ci && r.where.part == part && ItemAt(items, r.where.at, r.value)
  {
    ItemRefsIff(ci, part, [], items, 0, r);
    if i :| 0 <= i < |items| && r == Ref(items[i], Path(ci, part, [] + [i])) { assert [] + [i] == [i]; }
    if r.where.check == ci && r.where.part == part && ItemAt(items, r.where.at, r.value) {
      var i := r.where.at[0];
      assert r.where.at == [] + [i] && r == Ref(items[i], Path(ci, part, [] + [i]));
    }
  }

  lemma OneGroupRefsIff(ci: nat, part: Part, gi: nat, group: seq<string>, r: Ref)
    ensures r in ItemRefs(ci, part, [gi], group, 0)
       <==> r.where.check == ci && r.where.part == part && |r.where.at| == 2 && r.where.at[0] == gi
            && r.where.at[1] < |group| && group[r.where.at[1]] == r.value
  {
    ItemRefsIff(ci, part, [gi], group, 0, r);
    if i :| 0 <= i < |group| && r == Ref(group[i], Path(ci, part, [gi] + [i])) { assert [gi] + [i] == [gi, i]; }
    if r.where.check == ci && r.where.part == part && |r.where.at| == 2 && r.where.at[0] == gi
       && r.where.at[1] < |group| && group[r.where.at[1]] == r.value {
      var i := r.where.at[1];
      assert r.where.at == [gi] + [i] && r == Ref(group[i], Path(ci, part, [gi] + [i]));
    }
  }

  lemma {:induction false} GroupRefsIff(ci: nat, part: Part, groups: seq<seq<string>>, from: nat, r: Ref)
    ensures r in GroupRefs(ci, part, groups, from)
       <==> r.where.check == ci && r.where.part == part && AliasAt(groups, r.where.at, r.value) && from <= r.where.at[0]
    decreases |groups| - from
  {
    if from < |groups| {
      var first, rest := ItemRefs(ci, part, [from], groups[from], 0), GroupRefs(ci, part, groups, from + 1);
      OneGroupRefsIff(ci, part, from, groups[from], r);
      GroupRefsIff(ci, part, groups, from + 1, r);
      assert r in first + rest <==> r in first || r in rest;
    }
  }

  lemma RefsOfIff(sort: Sort, verify: seq<Check>, ci: nat, r: Ref)
    requires ci < |verify|
    ensures r in RefsOf(sort, ci, verify[ci])
       <==> r.where.check == ci && OfSort(sort, r.where.part) && StandsAt(verify, r.where, r.value)
  {
    match verify[ci]
    case AnswerContains(anyOf, allOf) =>
      GroupRefsIff(ci, AnyOf, anyOf, 0, r);
      GroupRefsIff(ci, AllOf, allOf, 0, r);
      var any, all := GroupRefs(ci, AnyOf, anyOf, 0), GroupRefs(ci, AllOf, allOf, 0);
      assert r in any + all <==> r in any || r in all;
    case AnswerNotContains(noneOf) => PlainItemRefsIff(ci, NoneOf, noneOf, r);
    case ApiEffect(probes) => PlainItemRefsIff(ci, Json, probes, r);
    case ToolCalled(args, output) =>
    case FileWrite(content) =>
    case OtherCheck =>
  }

  /** The text stands where a pass of that sort looks. */
  ghost predicate LookedAt(sort: Sort, verify: seq<Check>, r: Ref) {
    OfSort(sort, r.where.part) && StandsAt(verify, r.where, r.value)
  }

  lemma {:induction false} InSomeCheck(sort: Sort, verify: seq<Check>, from: nat, r: Ref)
    ensures r in Refs(sort, verify, from) <==> exists ci :: from <= ci < |verify| && r in RefsOf(sort, ci, verify[ci])
    decreases |verify| - from
  {
    if from < |verify| {
      InEither(RefsOf(sort, from, verify[from]), Refs(sort, verify, from + 1), r);
      InSomeCheck(sort, verify, from + 1, r);
    }
  }

  /** A pass looks at exactly the texts of its sort. */
  lemma RefsIff(sort: Sort, verify: seq<Check>, r: Ref)
    ensures r in Refs(sort, verify, 0) <==> LookedAt(sort, verify, r)
  {
    InSomeCheck(sort, verify, 0, r);
    if r in Refs(sort, verify, 0) {
      var ci :| 0 <= ci < |verify| && r in RefsOf(sort, ci, verify[ci]);
      RefsOfIff(sort, verify, ci, r);
    }
    if LookedAt(sort, verify, r) { RefsOfIff(sort, verify, r.where.check, r); }
  }

  ghost predicate Holds(lower: char -> char, text: string, literal: string) {
    Contains(NormalizeText(lower, text), NormalizeText(lower, literal))
  }

  /** The first turn that holds the literal, or the summary when no turn does. */
  ghost predicate LeaksAs(lower: char -> char, t: Task, literal: string, problem: Problem) {
    match problem
    case LiteralInTurn(i) =>
      i < |t.turns| && Holds(lower, t.turns[i], literal)
      && forall j :: 0 <= j < i ==> !Holds(lower, t.turns[j], literal)
    case LiteralInSummary =>
      Holds(lower, t.summary, literal) && forall j :: 0 <= j < |t.turns| ==> !Holds(lower, t.turns[j], literal)
    case _ => false
  }

  lemma {:induction false} LeakIff(lower: char -> char, lit: Ref, t: Task, from: nat, issue: Issue)
    requires from <= |t.turns| && forall j :: 0 <= j < from ==> !Holds(lower, t.turns[j], lit.value)
    ensures issue in LeakIssues(lower, lit, t, from)
       <==> issue.where == lit.where && LeaksAs(lower, t, lit.value, issue.problem)
    decreases |t.turns| - from
  {
    if from < |t.turns| && !Holds(lower, t.turns[from], lit.value) { LeakIff(lower, lit, t, from + 1, issue); }
  }

  lemma {:induction false} LeaksIff(lower: char -> char, literals: seq<Ref>, t: Task, issue: Issue)
    ensures issue in UninterventionIssues(lower, literals, t)
       <==> exists r :: r in literals && Probing(lower, r.value) && issue.where == r.where
                        && LeaksAs(lower, t, r.value, issue.problem)
  {
    if literals != [] {
      var lit, rest := literals[0], literals[1..];
      LeaksIff(lower, rest, t, issue);
      LeakIff(lower, lit, t, 0, issue);
      assert literals == [lit] + rest;
    }
  }

  /** A literal of twelve characters or more that normalises to something, in any check that
      states one, is reported exactly for the first turn that holds it, or for the summary when
      only that does. */
  lemma UninterventionIff(lower: char -> char, t: Task, issue: Issue)
    ensures issue in UninterventionIssues(lower, Refs(Literals, t.verify, 0), t)
       <==> exists v :: StandsAt(t.verify, issue.where, v) && |v| >= 12 && NormalizeText(lower, v) != ""
                        && LeaksAs(lower, t, v, issue.problem)
  {
    var literals := Refs(Literals, t.verify, 0);
    LeaksIff(lower, literals, t, issue);
    if r :| r in literals && Probing(lower, r.value) && issue.where == r.where
            && LeaksAs(lower, t, r.value, issue.problem) {
      RefsIff(Literals, t.verify, r);
      assert StandsAt(t.verify, issue.where, r.value);
    }
    if v :| StandsAt(t.verify, issue.where, v) && |v| >= 12 && NormalizeText(lower, v) != ""
            && LeaksAs(lower, t, v, issue.problem) {
      var r := Ref(v, issue.where);
      RefsIff(Literals, t.verify, r);
      assert r in literals && Probing(lower, r.value);
    }
  }

  lemma {:induction false} WordedIff(refs: seq<Ref>, r: Ref)
    ensures r in Worded(refs) <==> r in refs && !Blank(r.value)
  {
    if refs != [] {
      WordedIff(refs[1..], r);
      assert refs == [refs[0]] + refs[1..];
    }
  }

  lemma {:induction false} ClashesIff(lower: char -> char, token: Ref, aliases: seq<Ref>, issue: Issue)
    ensures issue in Clashes(lower, token, aliases)
       <==> issue.where == token.where && issue.problem.TokenInsideAlias? && issue.problem.alias in aliases
            && Holds(lower, issue.problem.alias.value, token.value)
  {
    if aliases != [] {
      ClashesIff(lower, token, aliases[1..], issue);
      assert aliases == [aliases[0]] + aliases[1..];
    }
  }

  lemma {:induction false} InconsistenciesIff(lower: char -> char, tokens: seq<Ref>, aliases: seq<Ref>, issue: Issue)
    ensures issue in ConsistencyIssues(lower, tokens, aliases)
       <==> issue.problem.TokenInsideAlias? && issue.problem.alias in aliases
            && exists r :: r in tokens && r.where == issue.where && NormalizeText(lower, r.value) != ""
                           && Holds(lower, issue.problem.alias.value, r.value)
  {
    if tokens != [] {
      InconsistenciesIff(lower, tokens[1..], aliases, issue);
      ClashesIff(lower, tokens[0], aliases, issue);
      assert tokens == [tokens[0]] + tokens[1..];
    }
  }

  /** A forbidden token that normalises to something is reported exactly for each alias, in any
      group, that it occurs in. */
  lemma ConsistencyIff(lower: char -> char, t: Task, issue: Issue)
    ensures issue in ConsistencyIssues(lower, Worded(Refs(Tokens, t.verify, 0)), Worded(Refs(Aliases, t.verify, 0)))
       <==> issue.problem.TokenInsideAlias?
            && var alias := issue.problem.alias;
               (alias.where.part == AnyOf || alias.where.part == AllOf) && StandsAt(t.verify, alias.where, alias.value)
               && !Blank(alias.value) && issue.where.part == NoneOf
               && exists v :: StandsAt(t.verify, issue.where, v) && !Blank(v) && NormalizeText(lower, v) != ""
                              && Holds(lower, alias.value, v)
  {
    var tokens, aliases := Refs(Tokens, t.verify, 0), Refs(Aliases, t.verify, 0);
    InconsistenciesIff(lower, Worded(tokens), Worded(aliases), issue);
    if issue.problem.TokenInsideAlias? {
      var alias := issue.problem.alias;
      WordedIff(aliases, alias);
      RefsIff(Aliases, t.verify, alias);
      if r :| r in Worded(tokens) && r.where == issue.where && NormalizeText(lower, r.value) != ""
              && Holds(lower, alias.value, r.value) {
        WordedIff(tokens, r);
        RefsIff(Tokens, t.verify, r);
        assert StandsAt(t.verify, issue.where, r.value);
      }
      if v :| StandsAt(t.verify, issue.where, v) && !Blank(v) && NormalizeText(lower, v) != ""
              && Holds(lower, alias.value, v) && issue.where.part == NoneOf {
        var r := Ref(v, issue.where);
        WordedIff(tokens, r);
        RefsIff(Tokens, t.verify, r);
        assert r in Worded(tokens);
      }
    }
  }

  /** What is wrong with an answer check in itself: no alias group, an empty one, a blank alias;
      no forbidden token, or a blank one. */
  ghost predicate Flawed(c: Check, part: Part, at: seq<nat>, problem: Problem) {
    match problem
    case NoAliasGroup => c == AnswerContains([], []) && part == Whole && at == []
    case EmptyGroup =>
      c.AnswerContains? && |at| == 1
      && ((part == AnyOf && at[0] < |c.anyOf| && c.anyOf[at[0]] == [])
          || (part == AllOf && at[0] < |c.allOf| && c.allOf[at[0]] == []))
    case EmptyAlias =>
      c.AnswerContains?
      && exists v ::
           Blank(v) && ((part == AnyOf && AliasAt(c.anyOf, at, v)) || (part == AllOf && AliasAt(c.allOf, at, v)))
    case NoForbiddenToken => c == AnswerNotContains([]) && part == NoneOf && at == []
    case EmptyToken => c.AnswerNotContains? && part == NoneOf && exists v :: Blank(v) && ItemAt(c.noneOf, at, v)
    case _ => false
  }

  lemma {:induction false} AliasIssuesIff(ci: nat, part: Part, gi: nat, group: seq<string>, from: nat, issue: Issue)
    ensures issue in AliasIssues(ci, part, gi, group, from)
       <==> exists i :: from <= i < |group| && Blank(group[i]) && issue == Issue(Path(ci, part, [gi, i]), EmptyAlias)
    decreases |group| - from
  {
    if from < |group| {
      var first := if Blank(group[from]) then [Issue(Path(ci, part, [gi, from]), EmptyAlias)] else [];
      var rest := AliasIssues(ci, part, gi, group, from + 1);
      AliasIssuesIff(ci, part, gi, group, from + 1, issue);
      assert issue in first + rest <==> issue in first || issue in rest;
    }
  }

  /** The flaw of one alias group. */
  ghost predicate FlawedGroup(ci: nat, part: Part, gi: nat, group: seq<string>, issue: Issue) {
    (issue == Issue(Path(ci, part, [gi]), EmptyGroup) && group == [])
    || (exists i :: 0 <= i < |group| && Blank(group[i]) && issue == Issue(Path(ci, part, [gi, i]), EmptyAlias))
  }

  lemma {:induction false} GroupIssuesIff(ci: nat, part: Part, groups: seq<seq<string>>, from: nat, issue: Issue)
    ensures issue in GroupIssues(ci, part, groups, from)
       <==> exists gi :: from <= gi < |groups| && FlawedGroup(ci, part, gi, groups[gi], issue)
    decreases |groups| - from
  {
    if from < |groups| {
      var first, rest := OneGroup(ci, part, from, groups[from]), GroupIssues(ci, part, groups, from + 1);
      AliasIssuesIff(ci, part, from, groups[from], 0, issue);
      GroupIssuesIff(ci, part, groups, from + 1, issue);
      assert issue in first + rest <==> issue in first || issue in rest;
    }
  }

  lemma GroupsFlawed(ci: nat, part: Part, groups: seq<seq<string>>, issue: Issue)
    ensures issue in GroupIssues(ci, part, groups, 0)
       <==> issue.where.check == ci && issue.where.part == part
            && var at := issue.where.at;
               (issue.problem == EmptyGroup && |at| == 1 && at[0] < |groups| && groups[at[0]] == [])
               || (issue.problem == EmptyAlias && exists v :: Blank(v) && AliasAt(groups, at, v))
  {
    var at := issue.where.at;
    GroupIssuesIff(ci, part, groups, 0, issue);
    if gi :| 0 <= gi < |groups| && FlawedGroup(ci, part, gi, groups[gi], issue) {
      if i :| 0 <= i < |groups[gi]| && Blank(groups[gi][i]) && issue == Issue(Path(ci, part, [gi, i]), EmptyAlias) {
        assert AliasAt(groups, at, groups[gi][i]);
      }
    }
    if issue.where.check == ci && issue.where.part == part {
      if issue.problem == EmptyGroup && |at| == 1 && at[0] < |groups| && groups[at[0]] == [] {
        assert at == [at[0]] && FlawedGroup(ci, part, at[0], groups[at[0]], issue);
      }
      if v :| issue.problem == EmptyAlias && Blank(v) && AliasAt(groups, at, v) {
        assert at == [at[0], at[1]] && FlawedGroup(ci, part, at[0], groups[at[0]], issue);
      }
    }
  }

  lemma {:induction false} TokenIssuesIff(ci: nat, tokens: seq<string>, from: nat, issue: Issue)
    ensures issue in TokenIssues(ci, tokens, from)
       <==> exists i :: from <= i < |tokens| && Blank(tokens[i]) && issue == Issue(Path(ci, NoneOf, [i]), EmptyToken)
    decreases |tokens| - from
  {
    if from < |tokens| {
      var first := if Blank(tokens[from]) then [Issue(Path(ci, NoneOf, [from]), EmptyToken)] else [];
      var rest := TokenIssues(ci, tokens, from + 1);
      TokenIssuesIff(ci, tokens, from + 1, issue);
      assert issue in first + rest <==> issue in first || issue in rest;
    }
  }

  lemma TokensFlawed(ci: nat, tokens: seq<string>, issue: Issue)
    ensures issue in TokenIssues(ci, tokens, 0)
       <==> issue.where.check == ci && issue.where.part == NoneOf && issue.problem == EmptyToken
            && exists v :: Blank(v) && ItemAt(tokens, issue.where.at, v)
  {
    TokenIssuesIff(ci, tokens, 0, issue);
    if i :| 0 <= i < |tokens| && Blank(tokens[i]) && issue == Issue(Path(ci, NoneOf, [i]), EmptyToken) {
      assert ItemAt(tokens, issue.where.at, tokens[i]);
    }
    if v :| Blank(v) && ItemAt(tokens, issue.where.at, v) { assert issue.where.at == [issue.where.at[0]]; }
  }

  /** An answer check's own flaws are reported exactly where they are. */
  lemma CheckIssuesIff(ci: nat, c: Check, issue: Issue)
    ensures issue in CheckIssues(ci, c)
       <==> issue.where.check == ci && Flawed(c, issue.where.part, issue.where.at, issue.problem)
  {
    match c
    case AnswerContains(anyOf, allOf) =>
      GroupsFlawed(ci, AnyOf, anyOf, issue);
      GroupsFlawed(ci, AllOf, allOf, issue);
      var none := if anyOf == [] && allOf == [] then [Issue(Path(ci, Whole, []), NoAliasGroup)] else [];
      var a, b := GroupIssues(ci, AnyOf, anyOf, 0), GroupIssues(ci, AllOf, allOf, 0);
      assert issue in none + a + b <==> issue in none || issue in a || issue in b;
    case AnswerNotContains(noneOf) =>
      TokensFlawed(ci, noneOf, issue);
      var none := if noneOf == [] then [Issue(Path(ci, NoneOf, []), NoForbiddenToken)] else [];
      assert issue in none + TokenIssues(ci, noneOf, 0) <==> issue in none || issue in TokenIssues(ci, noneOf, 0);
    case _ =>
  }

  // ---------------------------------------------------------------- what a clean lint means

  ghost predicate LintClean(lower: char -> char, t: Task) {
    (forall ci :: 0 <= ci < |t.verify| ==> CheckIssues(ci, t.verify[ci]) == [])
    && ConsistencyIssues(lower, Worded(Refs(Tokens, t.verify, 0)), Worded(Refs(Aliases, t.verify, 0))) == []
    && UninterventionIssues(lower, Refs(Literals, t.verify, 0), t) == []
  }

  lemma {:induction false} CleanAliases(ci: nat, part: Part, gi: nat, group: seq<string>, from: nat, ai: nat)
    requires AliasIssues(ci, part, gi, group, from) == []
    requires from <= ai < |group|
    ensures !Blank(group[ai])
    decreases |group| - from
  {
    var first := if Blank(group[from]) then [Issue(Path(ci, part, [gi, from]), EmptyAlias)] else [];
    EmptyParts(first, AliasIssues(ci, part, gi, group, from + 1));
    if from < ai { CleanAliases(ci, part, gi, group, from + 1, ai); }
  }

  lemma {:induction false} CleanGroups(ci: nat, part: Part, groups: seq<seq<string>>, from: nat, gi: nat)
    requires GroupIssues(ci, part, groups, from) == []
    requires from <= gi < |groups|
    ensures OneGroup(ci, part, gi, groups[gi]) == []
    decreases |groups| - from
  {
    EmptyParts(OneGroup(ci, part, from, groups[from]), GroupIssues(ci, part, groups, from + 1));
    if from < gi {
      CleanGroups(ci, part, groups, from + 1, gi);
    }
  }

  lemma CleanGroup(ci: nat, part: Part, gi: nat, group: seq<string>)
    requires OneGroup(ci, part, gi, group) == []
    ensures group != [] && forall a :: a in group ==> !Blank(a)
  {
    forall a | a in group ensures !Blank(a) {
      var ai :| 0 <= ai < |group| && group[ai] == a;
      CleanAliases(ci, part, gi, group, 0, ai);
    }
  }

  lemma {:induction false} ItemIsRef(ci: nat, part: Part, prefix: seq<nat>, items: seq<string>, from: nat, i: nat)
    requires from <= i < |items|
    ensures exists r :: r in ItemRefs(ci, part, prefix, items, from) && r.value == items[i]
    decreases |items| - from
  {
    var rest := ItemRefs(ci, part, prefix, items, from + 1);
    var first := Ref(items[from], Path(ci, part, prefix + [from]));
    if from < i {
      ItemIsRef(ci, part, prefix, items, from + 1, i);
      var r :| r in rest && r.value == items[i];
      assert r in [first] + rest;
    } else {
      assert first in [first] + rest;
    }
  }

  lemma {:induction false} AliasIsRef(ci: nat, part: Part, groups: seq<seq<string>>, from: nat, gi: nat, ai: nat)
    requires from <= gi < |groups| && ai < |groups[gi]|
    ensures exists r :: r in GroupRefs(ci, part, groups, from) && r.value == groups[gi][ai]
    decreases |groups| - from
  {
    var first, rest := ItemRefs(ci, part, [from], groups[from], 0), GroupRefs(ci, part, groups, from + 1);
    if from < gi {
      AliasIsRef(ci, part, groups, from + 1, gi, ai);
      var r :| r in rest && r.value == groups[gi][ai];
      assert r in first + rest;
    } else {
      ItemIsRef(ci, part, [from], groups[from], 0, ai);
      var r :| r in first && r.value == groups[gi][ai];
      assert r in first + rest;
    }
  }

  lemma {:induction false} CheckRefIsRef(sort: Sort, verify: seq<Check>, from: nat, ci: nat, r: Ref)
    requires from <= ci < |verify| && r in RefsOf(sort, ci, verify[ci])
    ensures r in Refs(sort, verify, from)
    decreases |verify| - from
  {
    var first, rest := RefsOf(sort, from, verify[from]), Refs(sort, verify, from + 1);
    assert Refs(sort, verify, from) == first + rest;
    if from < ci {
      CheckRefIsRef(sort, verify, from + 1, ci, r);
      assert r in rest;
    } else {
      assert r in first;
    }
  }

  lemma {:induction false} WordedMember(refs: seq<Ref>, r: Ref)
    requires r in refs && !Blank(r.value)
    ensures r in Worded(refs)
  {
    if refs[0] != r {
      assert refs == [refs[0]] + refs[1..];
      WordedMember(refs[1..], r);
    }
  }

  /** The alias stands in one of the check's groups. */
  ghost predicate HasAlias(c: Check, alias: string) {
    c.AnswerContains? && exists g :: (g in c.anyOf || g in c.allOf) && alias in g
  }

  lemma AliasInRefs(sort: Sort, t: Task, c: Check, alias: string)
    requires sort != Tokens && c in t.verify && HasAlias(c, alias)
    ensures exists r :: r in Refs(sort, t.verify, 0) && r.value == alias
  {
    var ci :| 0 <= ci < |t.verify| && t.verify[ci] == c;
    var g :| (g in c.anyOf || g in c.allOf) && alias in g;
    var ai :| 0 <= ai < |g| && g[ai] == alias;
    var any, all := GroupRefs(ci, AnyOf, c.anyOf, 0), GroupRefs(ci, AllOf, c.allOf, 0);
    var r: Ref;
    if g in c.anyOf {
      var gi :| 0 <= gi < |c.anyOf| && c.anyOf[gi] == g;
      AliasIsRef(ci, AnyOf, c.anyOf, 0, gi, ai);
      r :| r in any && r.value == alias;
    } else {
      var gi :| 0 <= gi < |c.allOf| && c.allOf[gi] == g;
      AliasIsRef(ci, AllOf, c.allOf, 0, gi, ai);
      r :| r in all && r.value == alias;
    }
    assert r in any + all;
    CheckRefIsRef(sort, t.verify, 0, ci, r);
  }

  lemma TokenInRefs(t: Task, c: Check, token: string)
    requires c in t.verify && c.AnswerNotContains? && token in c.noneOf
    ensures exists r :: r in Refs(Tokens, t.verify, 0) && r.value == token
  {
    var ci :| 0 <= ci < |t.verify| && t.verify[ci] == c;
    var i :| 0 <= i < |c.noneOf| && c.noneOf[i] == token;
    ItemIsRef(ci, NoneOf, [], c.noneOf, 0, i);
    var r :| r in ItemRefs(ci, NoneOf, [], c.noneOf, 0) && r.value == token;
    CheckRefIsRef(Tokens, t.verify, 0, ci, r);
  }

  lemma {:induction false} NoClash(lower: char -> char, token: Ref, aliases: seq<Ref>, a: Ref)
    requires Clashes(lower, token, aliases) == [] && a in aliases
    ensures !Contains(NormalizeText(lower, a.value), NormalizeText(lower, token.value))
  {
    if aliases[0] != a { NoClash(lower, token, aliases[1..], a); }
  }

  lemma {:induction false} NoInconsistency(lower: char -> char, tokens: seq<Ref>, aliases: seq<Ref>, f: Ref, a: Ref)
    requires ConsistencyIssues(lower, tokens, aliases) == []
    requires f in tokens && a in aliases && NormalizeText(lower, f.value) != ""
    ensures !Contains(NormalizeText(lower, a.value), NormalizeText(lower, f.value))
  {
    if tokens[0] == f {
      NoClash(lower, f, aliases, a);
    } else {
      NoInconsistency(lower, tokens[1..], aliases, f, a);
    }
  }

  lemma BlankNormalizesEmpty(lower: char -> char, s: string)
    requires CaseMapping(lower)
    requires Blank(s)
    ensures NormalizeText(lower, s) == ""
  {
    BlankMeans(s);
    SpacesFold(lower, s);
    SpacesHaveNoFields(s);
  }

  lemma SpacesFold(lower: char -> char, s: string)
    requires CaseMapping(lower)
    requires forall c :: c in s ==> IsSpace(c)
    ensures Fold(lower, s) == s
  {
    forall i | 0 <= i < |s| ensures Stable(lower, s[i]) { SpaceIsStable(lower, s[i]); }
    FoldOfStable(lower, s);
  }

  lemma SpaceIsStable(lower: char -> char, c: char)
    requires CaseMapping(lower) && IsSpace(c)
    ensures Stable(lower, c)
  {
  }

  lemma {:induction false} SpacesHaveNoFields(s: string)
    requires forall c :: c in s ==> IsSpace(c)
    ensures Fields(s) == []
  {
    if s != "" {
      assert s[0] in s;
      SpacesHaveNoFields(s[1..]);
    }
  }

  /** In a clean task no forbidden token that normalises to anything occurs, normalised,
      in a normalised alias. */
  lemma CleanSeparates(lower: char -> char, t: Task, c: Check, alias: string, d: Check, token: string)
    requires CaseMapping(lower) && LintClean(lower, t)
    requires c in t.verify && HasAlias(c, alias) && !Blank(alias)
    requires d in t.verify && d.AnswerNotContains? && token in d.noneOf
    requires NormalizeText(lower, token) != ""
    ensures !Contains(NormalizeText(lower, alias), NormalizeText(lower, token))
  {
    AliasInRefs(Aliases, t, c, alias);
    TokenInRefs(t, d, token);
    var a :| a in Refs(Aliases, t.verify, 0) && a.value == alias;
    var f :| f in Refs(Tokens, t.verify, 0) && f.value == token;
    if Blank(token) { BlankNormalizesEmpty(lower, token); }
    WordedMember(Refs(Aliases, t.verify, 0), a);
    WordedMember(Refs(Tokens, t.verify, 0), f);
    NoInconsistency(lower, Worded(Refs(Tokens, t.verify, 0)), Worded(Refs(Aliases, t.verify, 0)), f, a);
  }

  // ---------------------------------------------------------------- solvability

  ghost predicate Solvable(lower: char -> char, t: Task) {
    exists answer: string :: PassesAll(lower, t, answer)
  }

  ghost predicate PassesAll(lower: char -> char, t: Task, answer: string) {
    forall c :: c in t.verify ==> Passes(lower, c, answer)
  }

  /** The forbidden tokens of the task, as they are matched, one after the other. */
  function ForbiddenText(lower: char -> char, verify: seq<Check>): string {
    if verify == [] then ""
    else (if verify[0].AnswerNotContains? then TokenText(lower, verify[0].noneOf) else "")
         + ForbiddenText(lower, verify[1..])
  }

  function TokenText(lower: char -> char, tokens: seq<string>): string {
    if tokens == [] then "" else NormalizeText(lower, tokens[0]) + TokenText(lower, tokens[1..])
  }

  lemma {:induction false} TokenCharIn(lower: char -> char, tokens: seq<string>, token: string, x: char)
    requires token in tokens && x in NormalizeText(lower, token)
    ensures x in TokenText(lower, tokens)
  {
    if tokens[0] != token {
      assert tokens == [tokens[0]] + tokens[1..];
      TokenCharIn(lower, tokens[1..], token, x);
    }
  }

  lemma {:induction false} ForbiddenCharIn(lower: char -> char, verify: seq<Check>, c: Check, token: string, x: char)
    requires c in verify && c.AnswerNotContains? && token in c.noneOf && x in NormalizeText(lower, token)
    ensures x in ForbiddenText(lower, verify)
  {
    if verify[0] == c {
      TokenCharIn(lower, c.noneOf, token, x);
    } else {
      ForbiddenCharIn(lower, verify[1..], c, token, x);
    }
  }

  function FirstOfEach(groups: seq<seq<string>>): seq<string> {
    if groups == [] then []
    else (if groups[0] == [] then [] else [groups[0][0]]) + FirstOfEach(groups[1..])
  }

  /** One alias for every group the check needs hit. */
  function Picks(verify: seq<Check>): seq<string> {
    if verify == [] then []
    else (match verify[0]
          case AnswerContains(anyOf, allOf) =>
            (if anyOf == [] || anyOf[0] == [] then [] else [anyOf[0][0]]) + FirstOfEach(allOf)
          case _ => [])
         + Picks(verify[1..])
  }

  /** A character normalisation leaves standing on its own. */
  predicate Separator(lower: char -> char, c: char) {
    Stable(lower, c) && !IsSpace(c)
  }

  /** The witness: the picks, each set off by the separator character. */
  function Witness(picks: seq<string>, sep: char): string {
    if picks == [] then [sep] else picks[0] + " " + [sep] + " " + Witness(picks[1..], sep)
  }

  lemma SeparatorNormal(lower: char -> char, sep: char)
    requires CaseMapping(lower) && Separator(lower, sep)
    ensures NormalizeText(lower, [sep]) == [sep]
  {
    assert Fold(lower, [sep]) == [sep] + Fold(lower, [sep][1..]);
    FieldsOfField([sep], "");
    assert "" + [sep] == [sep];
  }

  lemma WitnessStep(lower: char -> char, picks: seq<string>, sep: char)
    requires CaseMapping(lower) && Separator(lower, sep) && picks != []
    ensures NormalizeText(lower, Witness(picks, sep))
         == Glue(Glue(NormalizeText(lower, picks[0]), [sep]), NormalizeText(lower, Witness(picks[1..], sep)))
  {
    var rest := Witness(picks[1..], sep);
    SeparatorNormal(lower, sep);
    NormalizeAcrossSpace(lower, picks[0], [sep]);
    NormalizeAcrossSpace(lower, picks[0] + " " + [sep], rest);
  }

  /** Every pick is found in the witness. */
  lemma {:induction false} WitnessHits(lower: char -> char, picks: seq<string>, sep: char, p: string)
    requires CaseMapping(lower) && Separator(lower, sep) && p in picks
    ensures Contains(NormalizeText(lower, Witness(picks, sep)), NormalizeText(lower, p))
  {
    WitnessStep(lower, picks, sep);
    var head := NormalizeText(lower, picks[0]);
    var rest := NormalizeText(lower, Witness(picks[1..], sep));
    var sub := NormalizeText(lower, p);
    if p == picks[0] {
      assert OccursAt(head, sub, 0);
      ContainsInGlue(head, [sep], sub);
      ContainsInGlue(Glue(head, [sep]), rest, sub);
    } else {
      WitnessHits(lower, picks[1..], sep, p);
      ContainsInGlue(Glue(head, [sep]), rest, sub);
    }
  }

  /** A token found in the witness is found in one pick, unless it holds the separator. */
  lemma {:induction false} WitnessMisses(lower: char -> char, picks: seq<string>, sep: char, token: string)
    requires CaseMapping(lower) && Separator(lower, sep)
    requires token != "" && Snug(token) && sep !in token
    requires forall p :: p in picks ==> !Contains(NormalizeText(lower, p), token)
    ensures !Contains(NormalizeText(lower, Witness(picks, sep)), token)
  {
    if picks == [] {
      SeparatorNormal(lower, sep);
    } else {
      WitnessStep(lower, picks, sep);
      WitnessMisses(lower, picks[1..], sep, token);
      var head := NormalizeText(lower, picks[0]);
      var rest := NormalizeText(lower, Witness(picks[1..], sep));
      if Contains(Glue(Glue(head, [sep]), rest), token) {
        SplitAtSeparator(head, sep, rest, token);
      }
    }
  }

  lemma {:induction false} FirstOfEachHas(groups: seq<seq<string>>, g: seq<string>)
    requires g in groups && g != []
    ensures g[0] in FirstOfEach(groups)
  {
    if groups[0] != g { FirstOfEachHas(groups[1..], g); }
  }

  lemma {:induction false} FirstOfEachFrom(groups: seq<seq<string>>, p: string)
    requires p in FirstOfEach(groups)
    ensures exists g :: g in groups && p in g
  {
    if groups[0] != [] && p == groups[0][0] {
      assert groups[0] in groups && p in groups[0];
    } else {
      FirstOfEachFrom(groups[1..], p);
      var g :| g in groups[1..] && p in g;
      assert g in groups;
    }
  }

  lemma {:induction false} PicksFrom(verify: seq<Check>, p: string)
    requires p in Picks(verify)
    ensures exists c :: c in verify && HasAlias(c, p)
  {
    if p in Picks(verify[1..]) {
      PicksFrom(verify[1..], p);
      var c :| c in verify[1..] && HasAlias(c, p);
      assert c in verify;
    } else {
      var c := verify[0];
      if p in FirstOfEach(c.allOf) {
        FirstOfEachFrom(c.allOf, p);
      } else {
        assert c.anyOf[0] in c.anyOf && p in c.anyOf[0];
      }
      assert HasAlias(c, p);
    }
  }

  lemma {:induction false} PicksHave(verify: seq<Check>, c: Check, p: string)
    requires c in verify && c.AnswerContains?
    requires p in FirstOfEach(c.allOf) || (c.anyOf != [] && c.anyOf[0] != [] && p == c.anyOf[0][0])
    ensures p in Picks(verify)
  {
    if verify[0] != c { PicksHave(verify[1..], c, p); }
  }

  lemma CleanCheck(lower: char -> char, t: Task, c: Check)
    requires LintClean(lower, t) && c in t.verify && c.AnswerContains?
    ensures forall g :: g in c.anyOf || g in c.allOf ==> g != [] && forall a :: a in g ==> !Blank(a)
  {
    var ci :| 0 <= ci < |t.verify| && t.verify[ci] == c;
    assert CheckIssues(ci, c) == [];
    forall g | g in c.anyOf || g in c.allOf ensures g != [] && forall a :: a in g ==> !Blank(a) {
      if g in c.anyOf {
        var gi :| 0 <= gi < |c.anyOf| && c.anyOf[gi] == g;
        CleanGroups(ci, AnyOf, c.anyOf, 0, gi);
        CleanGroup(ci, AnyOf, gi, g);
      } else {
        var gi :| 0 <= gi < |c.allOf| && c.allOf[gi] == g;
        CleanGroups(ci, AllOf, c.allOf, 0, gi);
        CleanGroup(ci, AllOf, gi, g);
      }
    }
  }

  lemma WitnessHitsGroup(lower: char -> char, t: Task, sep: char, c: Check, g: seq<string>)
    requires CaseMapping(lower) && Separator(lower, sep)
    requires c in t.verify && c.AnswerContains?
    requires g != [] && (g in c.allOf || (c.anyOf != [] && g == c.anyOf[0]))
    ensures GroupHits(lower, NormalizeText(lower, Witness(Picks(t.verify), sep)), g)
  {
    if g in c.allOf { FirstOfEachHas(c.allOf, g); }
    PicksHave(t.verify, c, g[0]);
    WitnessHits(lower, Picks(t.verify), sep, g[0]);
    assert g[0] in g;
  }

  lemma WitnessPassesContains(lower: char -> char, t: Task, sep: char, c: Check)
    requires CaseMapping(lower) && Separator(lower, sep) && LintClean(lower, t)
    requires c in t.verify && c.AnswerContains?
    ensures Passes(lower, c, Witness(Picks(t.verify), sep))
  {
    CleanCheck(lower, t, c);
    if c.anyOf != [] {
      assert c.anyOf[0] in c.anyOf;
      WitnessHitsGroup(lower, t, sep, c, c.anyOf[0]);
    }
    forall g | g in c.allOf
      ensures GroupHits(lower, NormalizeText(lower, Witness(Picks(t.verify), sep)), g)
    {
      WitnessHitsGroup(lower, t, sep, c, g);
    }
  }

  lemma PickMissesToken(lower: char -> char, t: Task, d: Check, token: string, p: string)
    requires CaseMapping(lower) && LintClean(lower, t) && p in Picks(t.verify)
    requires d in t.verify && d.AnswerNotContains? && token in d.noneOf && NormalizeText(lower, token) != ""
    ensures !Contains(NormalizeText(lower, p), NormalizeText(lower, token))
  {
    PicksFrom(t.verify, p);
    var c :| c in t.verify && HasAlias(c, p);
    CleanCheck(lower, t, c);
    CleanSeparates(lower, t, c, p, d, token);
  }

  lemma WitnessMissesToken(lower: char -> char, t: Task, sep: char, d: Check, token: string)
    requires CaseMapping(lower) && Separator(lower, sep) && LintClean(lower, t)
    requires sep !in ForbiddenText(lower, t.verify)
    requires d in t.verify && d.AnswerNotContains? && token in d.noneOf && NormalizeText(lower, token) != ""
    ensures !Contains(NormalizeText(lower, Witness(Picks(t.verify), sep)), NormalizeText(lower, token))
  {
    var picks := Picks(t.verify);
    NormalizedIsSnug(lower, token);
    if sep in NormalizeText(lower, token) {
      ForbiddenCharIn(lower, t.verify, d, token, sep);
    }
    forall p | p in picks ensures !Contains(NormalizeText(lower, p), NormalizeText(lower, token)) {
      PickMissesToken(lower, t, d, token, p);
    }
    WitnessMisses(lower, picks, sep, NormalizeText(lower, token));
  }

  lemma WitnessPassesNotContains(lower: char -> char, t: Task, sep: char, d: Check)
    requires CaseMapping(lower) && Separator(lower, sep) && LintClean(lower, t)
    requires sep !in ForbiddenText(lower, t.verify)
    requires d in t.verify && d.AnswerNotContains?
    requires forall token :: token in d.noneOf ==> NormalizeText(lower, token) != ""
    ensures Passes(lower, d, Witness(Picks(t.verify), sep))
  {
    forall token | token in d.noneOf
      ensures !Contains(NormalizeText(lower, Witness(Picks(t.verify), sep)), NormalizeText(lower, token))
    {
      WitnessMissesToken(lower, t, sep, d, token);
    }
  }

  /** Every forbidden token of the task normalises to something. */
  ghost predicate TokensWorded(lower: char -> char, t: Task) {
    forall d, token :: d in t.verify && d.AnswerNotContains? && token in d.noneOf ==> NormalizeText(lower, token) != ""
  }

  /** A token that normalises to nothing is found in every answer. */
  lemma EmptyTokenFailsAll(lower: char -> char, d: Check, token: string, answer: string)
    requires d.AnswerNotContains? && token in d.noneOf && NormalizeText(lower, token) == ""
    ensures !Passes(lower, d, answer)
  {
    var n := NormalizeText(lower, answer);
    assert n[0..0] == "";
    assert OccursAt(n, "", 0);
  }

  /** The main result: a lint-clean task can be passed exactly when every forbidden token
      normalises to something, given one separator character that no forbidden token uses. */
  lemma CleanTaskIsSolvable(lower: char -> char, t: Task, sep: char)
    requires CaseMapping(lower) && LintClean(lower, t)
    requires Separator(lower, sep) && sep !in ForbiddenText(lower, t.verify)
    ensures Solvable(lower, t) <==> TokensWorded(lower, t)
  {
    if TokensWorded(lower, t) {
      var answer := Witness(Picks(t.verify), sep);
      forall c | c in t.verify ensures Passes(lower, c, answer) {
        if c.AnswerContains? {
          WitnessPassesContains(lower, t, sep, c);
        } else if c.AnswerNotContains? {
          WitnessPassesNotContains(lower, t, sep, c);
        }
      }
      assert PassesAll(lower, t, answer);
    } else {
      var d, token :| d in t.verify && d.AnswerNotContains? && token in d.noneOf && NormalizeText(lower, token) == "";
      forall answer: string ensures !PassesAll(lower, t, answer) {
        EmptyTokenFailsAll(lower, d, token, answer);
      }
    }
  }

  /** Such a separator always exists when the forbidden tokens together are shorter than
      the private-use area. */
  lemma ShortTokensLeaveSeparator(lower: char -> char, t: Task)
    requires CaseMapping(lower) && LintClean(lower, t)
    requires |ForbiddenText(lower, t.verify)| < PRIVATE_COUNT
    ensures Solvable(lower, t) <==> TokensWorded(lower, t)
  {
    var sep := FreshPrivate(ForbiddenText(lower, t.verify));
    assert Separator(lower, sep) by { PrivateSeparates(lower, sep); }
    CleanTaskIsSolvable(lower, t, sep);
  }

  lemma PrivateSeparates(lower: char -> char, c: char)
    requires CaseMapping(lower) && Private(c)
    ensures Separator(lower, c)
  {
    assert lower(c) == c;
  }

  /** A lone backtick passes the lint as a forbidden token and fails every answer. */
  lemma BacktickIsUnsolvable(lower: char -> char)
    requires CaseMapping(lower)
    ensures var t := Task("", [], [AnswerNotContains(["`"])]);
            LintClean(lower, t) && !Solvable(lower, t)
  {
    var d := AnswerNotContains(["`"]);
    var t := Task("", [], [d]);
    assert lower('`') == '`';
    assert Fold(lower, "`") == "" + Fold(lower, "`"[1..]);
    assert NormalizeText(lower, "`") == "";
    assert !Blank("`") by { SnugTrims("`"); }
    assert CheckIssues(0, d) == TokenIssues(0, ["`"], 0);
    assert TokenIssues(0, ["`"], 1) == [];
    var r := Ref("`", Path(0, NoneOf, [] + [0]));
    assert ItemRefs(0, NoneOf, [], ["`"], 1) == [];
    assert Refs(Tokens, t.verify, 0) == [r] + Refs(Tokens, t.verify, 1);
    assert Refs(Tokens, t.verify, 1) == [];
    assert Worded([r]) == [r] + Worded([r][1..]);
    assert ConsistencyIssues(lower, [r], []) == ConsistencyIssues(lower, [r][1..], []);
    assert Refs(Aliases, t.verify, 0) == Refs(Aliases, t.verify, 1) == [];
    assert Refs(Literals, t.verify, 0) == [r] + Refs(Literals, t.verify, 1);
    assert Refs(Literals, t.verify, 1) == [];
    assert UninterventionIssues(lower, [r], t) == UninterventionIssues(lower, [r][1..], t);
    assert d in t.verify;
    forall answer: string ensures !PassesAll(lower, t, answer) {
      EmptyTokenFailsAll(lower, d, "`", answer);
    }
  }

  // ---------------------------------------------------------------- the prompt is no answer

  lemma {:induction false} NoLeak(lower: char -> char, lit: Ref, t: Task, from: nat, turn: nat)
    requires LeakIssues(lower, lit, t, from) == [] && from <= turn < |t.turns|
    ensures !Contains(NormalizeText(lower, t.turns[turn]), NormalizeText(lower, lit.value))
    decreases |t.turns| - from
  {
    if from < turn { NoLeak(lower, lit, t, from + 1, turn); }
  }

  lemma {:induction false} NoIntervention(lower: char -> char, literals: seq<Ref>, t: Task, lit: Ref)
    requires UninterventionIssues(lower, literals, t) == []
    requires lit in literals && Probing(lower, lit.value)
    ensures LeakIssues(lower, lit, t, 0) == []
  {
    if literals[0] != lit { NoIntervention(lower, literals[1..], t, lit); }
  }

  /** Repeating a turn of the prompt never passes a clean task that has a required group
      made of long aliases only. */
  lemma EchoFails(lower: char -> char, t: Task, turn: nat, c: Check, g: seq<string>)
    requires CaseMapping(lower) && LintClean(lower, t) && turn < |t.turns|
    requires c in t.verify && c.AnswerContains? && (g in c.allOf || c.anyOf == [g])
    requires forall a :: a in g ==> Probing(lower, a)
    ensures !Passes(lower, c, t.turns[turn])
  {
    var n := NormalizeText(lower, t.turns[turn]);
    forall a | a in g ensures !Contains(n, NormalizeText(lower, a)) {
      assert g in c.anyOf || g in c.allOf;
      AliasInRefs(Literals, t, c, a);
      var lit :| lit in Refs(Literals, t.verify, 0) && lit.value == a;
      NoIntervention(lower, Refs(Literals, t.verify, 0), t, lit);
      NoLeak(lower, lit, t, 0, turn);
    }
    assert !GroupHits(lower, n, g);
  }
}
