/** The transcript a session log is read back as. Rows carry no turn terminal: the projection
    closes a turn, with the usage it accumulated, when the next turn's first row arrives. */
module HistoryTurns {
  import opened Sequences
  import opened Text

  // ---------------------------------------------------------------- rows

  /** What one model call cost. */
  datatype Charge = Charge(input: int, output: int, total: int)

  datatype Usage = Usage(input: int, output: int, total: int, finalInput: int)

  /** A row's kind with the parts the projection looks at. `raw` is the provider's own total,
      `attachments` the number of attachments, `payload` whether an extension row carries the
      payload its kind announces. */
  datatype Entry =
    | NoMessage
    | Message(role: string, content: string, reasoning: string, attachments: nat, usage: Option<Charge>)
    | ModelSpanEnd(spend: Option<(int, int)>, raw: Option<int>)
    | ToolStart
    | ToolEnd
    | Replaced
    | Cancelled(reason: string)
    | Interrupt
    | Extension(chip: Chip, payload: bool)
    | Unrendered

  datatype Chip = PromptBlocked | MemoryIngested | SkillCandidate | TaskCompleted

  datatype Row = Row(id: string, turn: string, at: int, entry: Entry)

  datatype Kind =
    | MessageCompleted(role: string, content: string, reasoning: string, attachments: nat)
    | ToolCallStarted | ToolCallFinished | ContextCompacted | CancelledTurn(reason: string)
    | ApprovalRequired | ChipShown(chip: Chip)

  /** What a row shows. */
  datatype Shown = Shown(kind: Kind, id: string, turn: string, at: int)

  /** An event of the transcript: what a row shows, or the terminal of a turn, which comes with
      whatever stands for the turn's usage. */
  datatype Event<+U> = Told(shown: Shown) | TurnCompleted(turn: string, at: int, usage: U)

  function Role(entry: Entry): string {
    if entry.Message? then Lowered(TrimSpace(entry.role)) else ""
  }

  function Renders(entry: Entry): Option<Kind> {
    match entry
    case Message(_, content, reasoning, attachments, _) =>
      if Role(entry) !in ["user", "assistant"] then None
      else if TrimSpace(content) == "" && TrimSpace(reasoning) == "" && attachments == 0 then None
      else Some(MessageCompleted(Role(entry), content, reasoning, attachments))
    case ToolStart => Some(ToolCallStarted)
    case ToolEnd => Some(ToolCallFinished)
    case Replaced => Some(ContextCompacted)
    case Cancelled(reason) => Some(CancelledTurn(if reason == "" then "cancelled" else reason))
    case Interrupt => Some(ApprovalRequired)
    case Extension(chip, payload) => if payload then Some(ChipShown(chip)) else None
    case NoMessage => None
    case ModelSpanEnd(_, _) => None
    case Unrendered => None
  }

  function Charges(entry: Entry): Option<Charge> {
    match entry
    case Message(_, _, _, _, usage) => if Role(entry) == "assistant" then usage else None
    case ModelSpanEnd(Some(spend), raw) =>
      Some(Charge(spend.0, spend.1, if raw.Some? then raw.value else spend.0 + spend.1))
    case _ => None
  }

  /** All the projection takes from a row. */
  datatype Item = Item(turn: string, at: int, shows: Option<Shown>, charge: Option<Charge>, interrupt: bool)

  function Read(row: Row): (item: Item)
    ensures item.interrupt ==> item.shows.Some?
    ensures item.shows.Some? ==> item.shows.value.turn == item.turn && item.shows.value.id == row.id
  {
    var kind := Renders(row.entry);
    Item(row.turn, row.at, if kind.None? then None else Some(Shown(kind.value, row.id, row.turn, row.at)),
         Charges(row.entry), row.entry.Interrupt?)
  }

  /** The last charge's input is what the context last held: it is set, never summed. */
  function Charged(u: Option<Usage>, charge: Option<Charge>): Option<Usage> {
    match charge
    case None => u
    case Some(c) =>
      var before := if u.Some? then u.value else NOTHING;
      Some(Usage(before.input + c.input, before.output + c.output, before.total + c.total, c.input))
  }

  const NOTHING := Usage(0, 0, 0, 0)

  // ---------------------------------------------------------------- the projection

  /** The loop's variables. A terminal is put down with the turn's usage object, which later
      rows of the turn still charge, or with nil when there is none yet: until the end of the
      read all that matters is which. */
  datatype State = State(
    events: seq<Event<bool>>, usage: map<string, Usage>, interrupted: set<string>, prev: string, had: bool, last: int)

  const INITIAL := State([], map[], {}, "", false, 0)

  function UsageOf(usage: map<string, Usage>, turn: string): Option<Usage> {
    if turn in usage then Some(usage[turn]) else None
  }

  function ChargedTo(usage: map<string, Usage>, turn: string, charge: Option<Charge>): map<string, Usage> {
    var u := Charged(UsageOf(usage, turn), charge);
    if u.Some? then usage[turn := u.value] else usage
  }

  predicate Open(s: State) {
    s.prev != "" && s.had && s.prev !in s.interrupted
  }

  function Terminal(s: State, at: int): Event<bool> {
    TurnCompleted(s.prev, at, s.prev in s.usage)
  }

  /** Closes the turn before when `item` begins another one. */
  function Boundary(s: State, item: Item): State {
    if item.turn != s.prev && Open(s) then s.(events := s.events + [Terminal(s, item.at)], had := false) else s
  }

  function Telling<U>(shows: Option<Shown>): seq<Event<U>> {
    if shows.None? then [] else [Told(shows.value)]
  }

  function Absorb(s: State, item: Item): State {
    State(s.events + Telling(item.shows), ChargedTo(s.usage, item.turn, item.charge),
          if item.interrupt then s.interrupted + {item.turn} else s.interrupted,
          item.turn, s.had || item.shows.Some?, item.at)
  }

  function Run(s: State, items: seq<Item>): State
    decreases |items|
  {
    if items == [] then s else Run(Absorb(Boundary(s, items[0]), items[0]), items[1..])
  }

  function Finish(s: State, atEnd: bool): seq<Event<bool>> {
    if atEnd && Open(s) then s.events + [Terminal(s, s.last)] else s.events
  }

  /** The terminal as it is read: with what its usage object holds in the end. */
  function Settle(usage: map<string, Usage>, e: Event<bool>): Event<Option<Usage>> {
    match e
    case Told(shown) => Told(shown)
    case TurnCompleted(turn, at, charged) => TurnCompleted(turn, at, if charged then UsageOf(usage, turn) else None)
  }

  function Settled(usage: map<string, Usage>): Event<bool> -> Event<Option<Usage>> {
    (e: Event<bool>) => Settle(usage, e)
  }

  /** The events of a window; `atEnd` says that no forward page follows. */
  function Project(rows: seq<Row>, atEnd: bool): seq<Event<Option<Usage>>> {
    var s := Run(INITIAL, Map(Read, rows));
    Map(Settled(s.usage), Finish(s, atEnd))
  }

  /** A turn's usage object, shared by the accumulator and the terminals put down for it. */
  class UsagePayload {
    var input: int
    var output: int
    var total: int
    var finalInput: int

    function Value(): Usage
      reads this
    {
      Usage(input, output, total, finalInput)
    }

    constructor ()
      ensures Value() == NOTHING
    {
      input, output, total, finalInput := 0, 0, 0, 0;
    }

    method Add(c: Charge)
      modifies this
      ensures Some(Value()) == Charged(Some(old(Value())), Some(c))
    {
      input, output, total := input + c.input, output + c.output, total + c.total;
      finalInput := c.input;
    }
  }

  ghost predicate Unshared(usage: map<string, UsagePayload>) {
    forall t, u :: t in usage && u in usage && t != u ==> usage[t] != usage[u]
  }

  ghost function Held(usage: map<string, UsagePayload>): map<string, Usage>
    reads usage.Values
  {
    map t | t in usage :: usage[t].Value()
  }

  function Marked(e: Event<UsagePayload?>): Event<bool> {
    match e
    case Told(shown) => Told(shown)
    case TurnCompleted(turn, at, usage) => TurnCompleted(turn, at, usage != null)
  }

  /** Every terminal holds its turn's own usage object or nil. */
  ghost predicate Linked(events: seq<Event<UsagePayload?>>, usage: map<string, UsagePayload>) {
    forall i :: 0 <= i < |events| && events[i].TurnCompleted? && events[i].usage != null ==>
      events[i].turn in usage && usage[events[i].turn] == events[i].usage
  }

  function Cell(e: Event<UsagePayload?>): set<UsagePayload?> {
    if e.TurnCompleted? then {e.usage} else {}
  }

  ghost function Seen(e: Event<UsagePayload?>): Event<Option<Usage>>
    reads Cell(e)
  {
    match e
    case Told(shown) => Told(shown)
    case TurnCompleted(turn, at, usage) =>
      TurnCompleted(turn, at, if usage == null then None else Some(usage.Value()))
  }

  /** The events as they are read, each terminal with what its usage object holds now. */
  ghost function SeenAll(events: seq<Event<UsagePayload?>>): (seen: seq<Event<Option<Usage>>>)
    reads set i, c | 0 <= i < |events| && c in Cell(events[i]) :: c
    ensures |seen| == |events| && forall i :: 0 <= i < |events| ==> seen[i] == Seen(events[i])
  {
    if events == [] then [] else [Seen(events[0])] + SeenAll(events[1..])
  }

  method ChargeTurn(usage: map<string, UsagePayload>, turn: string, charge: Option<Charge>)
      returns (r: map<string, UsagePayload>)
    requires Unshared(usage)
    modifies if turn in usage then {usage[turn]} else {}
    ensures Unshared(r) && Held(r) == ChargedTo(old(Held(usage)), turn, charge)
    ensures r == usage || (turn !in usage && turn in r && fresh(r[turn]) && r == usage[turn := r[turn]])
  {
    r := usage;
    if charge.Some? {
      var u: UsagePayload;
      if turn in usage {
        u := usage[turn];
      } else {
        u := new UsagePayload();
        r := usage[turn := u];
      }
      u.Add(charge.value);
    }
  }

  lemma SeenIsSettled(events: seq<Event<UsagePayload?>>, usage: map<string, UsagePayload>)
    requires Linked(events, usage)
    ensures SeenAll(events) == Map(Settled(Held(usage)), Map(Marked, events))
  {
  }

  method Completed(events: seq<Event<UsagePayload?>>, turn: string, at: int, usage: map<string, UsagePayload>)
      returns (r: seq<Event<UsagePayload?>>)
    requires Linked(events, usage)
    ensures Linked(r, usage)
    ensures Map(Marked, r) == Map(Marked, events) + [TurnCompleted(turn, at, turn in usage)]
  {
    var u: UsagePayload? := null;
    if turn in usage {
      u := usage[turn];
    }
    r := events + [TurnCompleted(turn, at, u)];
  }

  /** The loop's variables as values. */
  ghost function View(events: seq<Event<UsagePayload?>>, usage: map<string, UsagePayload>, interrupted: set<string>,
                      prev: string, had: bool, last: int): State
    reads usage.Values
  {
    State(Map(Marked, events), Held(usage), interrupted, prev, had, last)
  }

  /** What a row does behind the boundary. */
  method TakeRow(events: seq<Event<UsagePayload?>>, usage: map<string, UsagePayload>, interrupted: set<string>,
                 ghost s: State, item: Item)
      returns (events': seq<Event<UsagePayload?>>, usage': map<string, UsagePayload>, interrupted': set<string>)
    requires Unshared(usage) && Linked(events, usage)
    requires s.events == Map(Marked, events) && s.usage == Held(usage) && s.interrupted == interrupted
    modifies usage.Values
    ensures Unshared(usage') && Linked(events', usage')
    ensures forall t :: t in usage' ==> fresh(usage'[t]) || (t in usage && usage'[t] == usage[t])
    ensures View(events', usage', interrupted', item.turn, s.had || item.shows.Some?, item.at) == Absorb(s, item)
  {
    usage' := ChargeTurn(usage, item.turn, item.charge);
    interrupted' := if item.interrupt then interrupted + {item.turn} else interrupted;
    MapAppend(Marked, events, Telling(item.shows));
    assert Map(Marked, Telling(item.shows)) == Telling<bool>(item.shows);
    events' := events + Telling(item.shows);
  }

  lemma RunNext(s: State, items: seq<Item>, i: nat)
    requires i < |items|
    ensures Run(s, items[i..]) == Run(Absorb(Boundary(s, items[i]), items[i]), items[i + 1..])
  {
    assert items[i..][0] == items[i] && items[i..][1..] == items[i + 1..];
  }

  method ProjectTurns(rows: seq<Row>, next: string) returns (events: seq<Event<UsagePayload?>>)
    ensures SeenAll(events) == Project(rows, next == "")
  {
    events := [];
    var usage: map<string, UsagePayload> := map[];
    var interrupted: set<string> := {};
    var prev, had, last := "", false, 0;
    ghost var items := Map(Read, rows);
    for i := 0 to |rows|
      invariant Unshared(usage) && Linked(events, usage) && forall t :: t in usage ==> fresh(usage[t])
      invariant Run(View(events, usage, interrupted, prev, had, last), items[i..]) == Run(INITIAL, items)
    {
      var item := Read(rows[i]);
      ghost var before := View(events, usage, interrupted, prev, had, last);
      RunNext(before, items, i);
      last := item.at;
      if prev != "" && item.turn != prev && had && prev !in interrupted {
        events := Completed(events, prev, last, usage);
        had := false;
      }
      ghost var s := View(events, usage, interrupted, prev, had, last);
      assert s == Boundary(before, item).(last := last);
      prev := item.turn;
      events, usage, interrupted := TakeRow(events, usage, interrupted, s, item);
      had := had || item.shows.Some?;
    }
    assert items[|rows|..] == [];
    if next == "" && prev != "" && had && prev !in interrupted {
      events := Completed(events, prev, last, usage);
    }
    SeenIsSettled(events, usage);
  }

  // ---------------------------------------------------------------- stretch by stretch

  /** A maximal stretch of rows that carry the same turn id, or none. A turn that run-level
      rows interrupt has several. */
  datatype Stretch = Stretch(id: string, items: seq<Item>)

  function Split(items: seq<Item>): seq<Stretch> {
    if items == [] then []
    else
      var rest := Split(items[1..]);
      if rest != [] && rest[0].id == items[0].turn then
        [Stretch(rest[0].id, [items[0]] + rest[0].items)] + rest[1..]
      else [Stretch(items[0].turn, [items[0]])] + rest
  }

  function Join(st: seq<Stretch>): seq<Item> {
    if st == [] then [] else st[0].items + Join(st[1..])
  }

  ghost predicate Wellformed(items: seq<Item>) {
    forall i :: 0 <= i < |items| && items[i].interrupt ==> items[i].shows.Some?
  }

  ghost predicate StretchOf(t: Stretch) {
    t.items != [] && Wellformed(t.items) && forall i :: 0 <= i < |t.items| ==> t.items[i].turn == t.id
  }

  /** Stretches of rows, none of which could be longer. */
  ghost predicate Stretches(st: seq<Stretch>) {
    (forall i :: 0 <= i < |st| ==> StretchOf(st[i])) && (forall i :: 0 < i < |st| ==> st[i - 1].id != st[i].id)
  }

  lemma StretchGrows(item: Item, t: Stretch)
    requires StretchOf(t) && item.turn == t.id && Wellformed([item])
    ensures StretchOf(Stretch(t.id, [item] + t.items))
  {
    var items := [item] + t.items;
    forall i | 0 <= i < |items| ensures items[i].turn == t.id && (items[i].interrupt ==> items[i].shows.Some?) {
      if i > 0 { assert items[i] == t.items[i - 1]; } else { assert [item][0] == item; }
    }
  }

  lemma {:induction false} SplitJoins(items: seq<Item>)
    requires Wellformed(items)
    ensures Join(Split(items)) == items && Stretches(Split(items))
    ensures items != [] ==> Split(items) != [] && Split(items)[0].id == items[0].turn
  {
    if items != [] {
      SplitJoins(items[1..]);
      var rest, st := Split(items[1..]), Split(items);
      assert items == [items[0]] + items[1..] && [items[0]][0] == items[0];
      if rest != [] && rest[0].id == items[0].turn {
        StretchGrows(items[0], rest[0]);
        assert st[1..] == rest[1..];
        Regroup([items[0]], rest[0].items, Join(rest[1..]));
        forall i | 0 < i < |st| ensures StretchOf(st[i]) && st[i - 1].id != st[i].id { assert st[i] == rest[i]; }
      } else {
        assert st[1..] == rest;
        forall i | 0 < i < |st| ensures StretchOf(st[i]) && st[i - 1].id != st[i].id { assert st[i] == rest[i - 1]; }
      }
    }
  }

  predicate Tells(item: Item) {
    item.shows.Some?
  }

  predicate Pays(item: Item) {
    item.charge.Some?
  }

  predicate Stops(item: Item) {
    item.interrupt
  }

  predicate Any(p: Item -> bool, items: seq<Item>) {
    items != [] && (p(items[0]) || Any(p, items[1..]))
  }

  function Tellings<U>(items: seq<Item>): seq<Event<U>> {
    if items == [] then [] else Telling<U>(items[0].shows) + Tellings<U>(items[1..])
  }

  lemma {:induction false} WithinStretch(s: State, items: seq<Item>)
    requires forall i :: 0 <= i < |items| ==> items[i].turn == s.prev
    ensures var r := Run(s, items);
      r.events == s.events + Tellings(items)
      && r.interrupted == (if Any(Stops, items) then s.interrupted + {s.prev} else s.interrupted)
      && r.usage.Keys == (if Any(Pays, items) then s.usage.Keys + {s.prev} else s.usage.Keys)
      && r.prev == s.prev && r.had == (s.had || Any(Tells, items))
      && r.last == (if items == [] then s.last else items[|items| - 1].at)
    decreases |items|
  {
    if items != [] {
      var next, rest := Absorb(s, items[0]), items[1..];
      assert Boundary(s, items[0]) == s;
      WithinStretch(next, rest);
      Regroup(s.events, Telling(items[0].shows), Tellings(rest));
    }
  }

  lemma {:induction false} RunAppend(s: State, a: seq<Item>, b: seq<Item>)
    ensures Run(s, a + b) == Run(Run(s, a), b)
    decreases |a|
  {
    if a == [] {
      assert a + b == b;
    } else {
      assert (a + b)[1..] == a[1..] + b;
      RunAppend(Absorb(Boundary(s, a[0]), a[0]), a[1..], b);
    }
  }

  /** Some stretch of the turn up to the k-th has an interrupt, or a charge. */
  ghost predicate UpTo(st: seq<Stretch>, k: nat, turn: string, p: Item -> bool) {
    exists j :: 0 <= j <= k && j < |st| && st[j].id == turn && Any(p, st[j].items)
  }

  /** The k-th stretch gets no terminal whatever it shows: its rows carry no turn id, or its
      turn has been interrupted. */
  ghost predicate Loose(st: seq<Stretch>, k: nat)
    requires k < |st|
  {
    st[k].id == "" || UpTo(st, k, st[k].id, Stops)
  }

  ghost predicate Shows(st: seq<Stretch>, k: nat)
    requires k < |st|
  {
    Any(Tells, st[k].items)
  }

  /** The flag that there were events comes up to the k-th stretch from one before it: nothing
      between them was closed. */
  ghost predicate Carried(st: seq<Stretch>, k: nat)
    requires k <= |st|
  {
    exists j :: 0 <= j < k && Shows(st, j) && forall i :: j <= i < k ==> Loose(st, i)
  }

  ghost predicate Closes(st: seq<Stretch>, k: nat)
    requires k < |st|
  {
    !Loose(st, k) && (Shows(st, k) || Carried(st, k))
  }

  lemma CarriedOn(st: seq<Stretch>, k: nat)
    requires k < |st|
    ensures Carried(st, k + 1) <==> Loose(st, k) && (Shows(st, k) || Carried(st, k))
  {
    if Loose(st, k) && Carried(st, k) {
      var j :| 0 <= j < k && Shows(st, j) && forall i :: j <= i < k ==> Loose(st, i);
      assert forall i :: j <= i < k + 1 ==> Loose(st, i);
    }
    if Carried(st, k + 1) {
      var j :| 0 <= j < k + 1 && Shows(st, j) && forall i :: j <= i < k + 1 ==> Loose(st, i);
      assert Loose(st, k);
      if j < k { assert forall i :: j <= i < k ==> Loose(st, i); }
    }
  }

  lemma UpToNext(st: seq<Stretch>, k: nat, turn: string, p: Item -> bool)
    requires k + 1 < |st|
    ensures UpTo(st, k + 1, turn, p) <==> UpTo(st, k, turn, p) || (st[k + 1].id == turn && Any(p, st[k + 1].items))
  {
    if st[k + 1].id == turn && Any(p, st[k + 1].items) { assert k + 1 <= k + 1; }
    if UpTo(st, k + 1, turn, p) {
      var j :| 0 <= j <= k + 1 && j < |st| && st[j].id == turn && Any(p, st[j].items);
      assert j == k + 1 || j <= k;
    }
  }

  /** The state just after the k-th stretch. */
  ghost predicate After(s: State, st: seq<Stretch>, k: nat)
    requires k < |st|
  {
    st[k].items != [] && s.prev == st[k].id && s.had == (Shows(st, k) || Carried(st, k))
    && s.last == st[k].items[|st[k].items| - 1].at
    && (forall t :: t in s.interrupted <==> UpTo(st, k, t, Stops))
    && (forall t :: t in s.usage <==> UpTo(st, k, t, Pays))
  }

  lemma RunStretch(s: State, t: Stretch)
    requires StretchOf(t)
    ensures var b, r := Boundary(s, t.items[0]), Run(s, t.items);
      r.events == b.events + Tellings(t.items) && r.prev == t.id && r.had == (b.had || Any(Tells, t.items))
      && r.interrupted == (if Any(Stops, t.items) then s.interrupted + {t.id} else s.interrupted)
      && r.usage.Keys == (if Any(Pays, t.items) then s.usage.Keys + {t.id} else s.usage.Keys)
      && r.last == t.items[|t.items| - 1].at
  {
    var b := Boundary(s, t.items[0]).(prev := t.id);
    assert Boundary(b, t.items[0]) == b;
    assert Run(s, t.items) == Run(b, t.items);
    WithinStretch(b, t.items);
  }

  lemma FirstStretch(st: seq<Stretch>)
    requires st != [] && StretchOf(st[0])
    ensures var r := Run(INITIAL, st[0].items); r.events == Tellings(st[0].items) && After(r, st, 0)
  {
    RunStretch(INITIAL, st[0]);
    assert Boundary(INITIAL, st[0].items[0]) == INITIAL;
    forall t, p ensures UpTo(st, 0, t, p) <==> st[0].id == t && Any(p, st[0].items) {
      if st[0].id == t && Any(p, st[0].items) { assert 0 <= 0; }
    }
  }

  /** A terminal is put down at the next stretch's first row, or at the last row of all. */
  function CloseAt(st: seq<Stretch>, k: nat): int
    requires k < |st|
  {
    if k + 1 < |st| && st[k + 1].items != [] then st[k + 1].items[0].at
    else if st[k].items != [] then st[k].items[|st[k].items| - 1].at
    else 0
  }

  function Closing<U>(st: seq<Stretch>, marks: seq<Option<U>>, k: nat): seq<Event<U>>
    requires k < |st| == |marks|
  {
    if marks[k].None? then [] else [TurnCompleted(st[k].id, CloseAt(st, k), marks[k].value)]
  }

  /** The events from the k-th stretch on, when `marks` says which stretches get a terminal
      behind them. */
  function Laid<U>(st: seq<Stretch>, marks: seq<Option<U>>, k: nat): seq<Event<U>>
    requires k <= |st| == |marks|
    decreases |st| - k
  {
    if k == |st| then [] else Tellings<U>(st[k].items) + (Closing(st, marks, k) + Laid(st, marks, k + 1))
  }

  /** The k-th stretch is closed here: only the last one of a page with a next one is left. */
  predicate Due(st: seq<Stretch>, k: nat, atEnd: bool) {
    atEnd || k + 1 < |st|
  }

  ghost function Marks(st: seq<Stretch>, atEnd: bool): (marks: seq<Option<bool>>)
    ensures |marks| == |st|
  {
    seq(|st|, k requires 0 <= k < |st| =>
      if Closes(st, k) && Due(st, k, atEnd) then Option.Some(UpTo(st, k, st[k].id, Pays)) else None)
  }

  lemma OpenIffCloses(s: State, st: seq<Stretch>, k: nat, atEnd: bool)
    requires k < |st| && After(s, st, k)
    ensures Open(s) <==> Closes(st, k)
    ensures Open(s) && Due(st, k, atEnd) ==> [Terminal(s, CloseAt(st, k))] == Closing(st, Marks(st, atEnd), k)
    ensures !Open(s) || !Due(st, k, atEnd) ==> [] == Closing(st, Marks(st, atEnd), k)
  {
  }

  lemma BoundaryCloses(s: State, st: seq<Stretch>, k: nat, atEnd: bool)
    requires Stretches(st) && k + 1 < |st| && After(s, st, k)
    ensures var b := Boundary(s, st[k + 1].items[0]);
      b.events == s.events + Closing(st, Marks(st, atEnd), k) && b.had == Carried(st, k + 1)
  {
    assert st[k].id != st[k + 1].id && StretchOf(st[k + 1]);
    OpenIffCloses(s, st, k, atEnd);
    CarriedOn(st, k);
  }

  lemma NextStretch(s: State, st: seq<Stretch>, k: nat, atEnd: bool)
    requires Stretches(st) && k + 1 < |st| && After(s, st, k)
    ensures var r := Run(s, st[k + 1].items);
      r.events == s.events + Closing(st, Marks(st, atEnd), k) + Tellings(st[k + 1].items) && After(r, st, k + 1)
  {
    var u := st[k + 1];
    assert StretchOf(u);
    BoundaryCloses(s, st, k, atEnd);
    RunStretch(s, u);
    forall t ensures UpTo(st, k + 1, t, Stops) <==> UpTo(st, k, t, Stops) || (u.id == t && Any(Stops, u.items)) {
      UpToNext(st, k, t, Stops);
    }
    forall t ensures UpTo(st, k + 1, t, Pays) <==> UpTo(st, k, t, Pays) || (u.id == t && Any(Pays, u.items)) {
      UpToNext(st, k, t, Pays);
    }
  }

  lemma Nest<T>(a: seq<T>, b: seq<T>, c: seq<T>, d: seq<T>)
    ensures a + b + c + d == a + (b + (c + d))
  {
  }

  lemma LastStretch(s: State, st: seq<Stretch>, k: nat, atEnd: bool)
    requires k + 1 == |st| && After(s, st, k)
    ensures Finish(s, atEnd) == s.events + (Closing(st, Marks(st, atEnd), k) + [])
  {
    OpenIffCloses(s, st, k, atEnd);
    assert s.events + [] == s.events;
  }

  lemma {:induction false} FromStretch(s: State, st: seq<Stretch>, k: nat, atEnd: bool, marks: seq<Option<bool>>)
    requires Stretches(st) && k < |st| && After(s, st, k) && marks == Marks(st, atEnd)
    ensures Finish(Run(s, Join(st[k + 1..])), atEnd) == s.events + (Closing(st, marks, k) + Laid(st, marks, k + 1))
    decreases |st| - k
  {
    if k + 1 == |st| {
      LastStretch(s, st, k, atEnd);
    } else {
      var u, later := st[k + 1], Join(st[k + 2..]);
      var r := Run(s, u.items);
      assert st[k + 1..][0] == u && st[k + 1..][1..] == st[k + 2..];
      NextStretch(s, st, k, atEnd);
      RunAppend(s, u.items, later);
      FromStretch(r, st, k + 1, atEnd, marks);
      Nest(s.events, Closing(st, marks, k), Tellings(u.items), Closing(st, marks, k + 1) + Laid(st, marks, k + 2));
    }
  }

  // ---------------------------------------------------------------- what a turn costs

  function Own(items: seq<Item>, turn: string): seq<Item> {
    if items == [] then [] else (if items[0].turn == turn then [items[0]] else []) + Own(items[1..], turn)
  }

  function Cost(u: Option<Usage>, items: seq<Item>): Option<Usage>
    decreases |items|
  {
    if items == [] then u else Cost(Charged(u, items[0].charge), items[1..])
  }

  /** What all rows of the turn cost together. */
  function CostOf(items: seq<Item>, turn: string): Option<Usage> {
    Cost(None, Own(items, turn))
  }

  lemma {:induction false} RunCharges(s: State, items: seq<Item>, turn: string)
    ensures UsageOf(Run(s, items).usage, turn) == Cost(UsageOf(s.usage, turn), Own(items, turn))
    decreases |items|
  {
    if items != [] {
      var next, own := Absorb(Boundary(s, items[0]), items[0]), Own(items[1..], turn);
      RunCharges(next, items[1..], turn);
      if items[0].turn == turn {
        assert ([items[0]] + own)[1..] == own;
        assert UsageOf(next.usage, turn) == Charged(UsageOf(s.usage, turn), items[0].charge);
      } else {
        assert UsageOf(next.usage, turn) == UsageOf(s.usage, turn) && Own(items, turn) == own;
      }
    }
  }

  // ---------------------------------------------------------------- every read, exactly

  function StretchesOf(rows: seq<Row>): seq<Stretch> {
    Split(Map(Read, rows))
  }

  /** What a terminal behind the k-th stretch tells. Its usage object is filled up by every
      later charge of the turn; a terminal put down before the first charge holds none. */
  ghost function CostAt(st: seq<Stretch>, k: nat): Option<Usage>
    requires k < |st|
  {
    if UpTo(st, k, st[k].id, Pays) then CostOf(Join(st), st[k].id) else None
  }

  /** The terminals of a read. */
  ghost function Terminals(st: seq<Stretch>, atEnd: bool): (marks: seq<Option<Option<Usage>>>)
    ensures |marks| == |st|
  {
    seq(|st|, k requires 0 <= k < |st| =>
      if Closes(st, k) && Due(st, k, atEnd) then Option.Some(CostAt(st, k)) else None)
  }

  lemma {:induction false} LaidSettles(st: seq<Stretch>, usage: map<string, Usage>, k: nat, atEnd: bool)
    requires k <= |st| && forall t :: UsageOf(usage, t) == CostOf(Join(st), t)
    ensures Map(Settled(usage), Laid(st, Marks(st, atEnd), k)) == Laid(st, Terminals(st, atEnd), k)
    decreases |st| - k
  {
    if k < |st| {
      var shown, closing := Tellings<bool>(st[k].items), Closing(st, Marks(st, atEnd), k);
      LaidSettles(st, usage, k + 1, atEnd);
      TellingsSettle(usage, st[k].items);
      MapAppend(Settled(usage), shown, closing + Laid(st, Marks(st, atEnd), k + 1));
      MapAppend(Settled(usage), closing, Laid(st, Marks(st, atEnd), k + 1));
      assert Map(Settled(usage), closing) == Closing(st, Terminals(st, atEnd), k);
    }
  }

  lemma {:induction false} TellingsSettle(usage: map<string, Usage>, items: seq<Item>)
    ensures Map(Settled(usage), Tellings(items)) == Tellings(items)
  {
    if items != [] {
      TellingsSettle(usage, items[1..]);
      MapAppend(Settled(usage), Telling(items[0].shows), Tellings(items[1..]));
      assert Map(Settled(usage), Telling(items[0].shows)) == Telling<Option<Usage>>(items[0].shows);
    }
  }

  lemma RunStretches(st: seq<Stretch>, atEnd: bool)
    requires Stretches(st)
    ensures Finish(Run(INITIAL, Join(st)), atEnd) == Laid(st, Marks(st, atEnd), 0)
  {
    if st != [] {
      var r := Run(INITIAL, st[0].items);
      FirstStretch(st);
      RunAppend(INITIAL, st[0].items, Join(st[1..]));
      FromStretch(r, st, 0, atEnd, Marks(st, atEnd));
    }
  }

  /** Every log and every window, whatever its turn ids: a read is, stretch by stretch, what the
      rows show, and a terminal behind each stretch of a turn that is not interrupted so far and
      has shown something, or has inherited the flag of a stretch that was not closed. */
  lemma ReadByStretches(rows: seq<Row>, atEnd: bool)
    ensures var st := StretchesOf(rows);
      Join(st) == Map(Read, rows) && Stretches(st) && Project(rows, atEnd) == Laid(st, Terminals(st, atEnd), 0)
  {
    var items, st := Map(Read, rows), StretchesOf(rows);
    SplitJoins(items);
    RunStretches(st, atEnd);
    forall t ensures UsageOf(Run(INITIAL, items).usage, t) == CostOf(items, t) { RunCharges(INITIAL, items, t); }
    LaidSettles(st, Run(INITIAL, items).usage, 0, atEnd);
  }

  // ---------------------------------------------------------------- what is wrong with it, exactly

  ghost predicate ShowsAgain(st: seq<Stretch>, k: nat)
    requires k < |st|
  {
    exists j :: k < j < |st| && st[j].id == st[k].id && Shows(st, j)
  }

  ghost predicate Interrupted(st: seq<Stretch>, turn: string) {
    UpTo(st, |st|, turn, Stops)
  }

  /** The terminals there should be: one behind the last stretch in which a turn shows
      something, with all its rows cost, unless the turn is interrupted. */
  ghost function IdealTerminals(st: seq<Stretch>): (marks: seq<Option<Option<Usage>>>)
    ensures |marks| == |st|
  {
    seq(|st|, k requires 0 <= k < |st| =>
      if LastShown(st, k) && !Interrupted(st, st[k].id) then Option.Some(CostOf(Join(st), st[k].id)) else None)
  }

  ghost predicate LastShown(st: seq<Stretch>, k: nat)
    requires k < |st|
  {
    st[k].id != "" && Shows(st, k) && !ShowsAgain(st, k)
  }

  ghost function Ideal(rows: seq<Row>): seq<Event<Option<Usage>>> {
    Laid(StretchesOf(rows), IdealTerminals(StretchesOf(rows)), 0)
  }

  /** Rows of another turn, or of none, stand inside a turn that shows something before and
      after them. */
  ghost predicate Reopened(st: seq<Stretch>, k: nat)
    requires k < |st|
  {
    !Loose(st, k) && Shows(st, k) && ShowsAgain(st, k)
  }

  /** A turn's silent stretch comes behind an interrupt's or a run-level row's events. */
  ghost predicate Stray(st: seq<Stretch>, k: nat)
    requires k < |st|
  {
    !Loose(st, k) && !Shows(st, k) && Carried(st, k)
  }

  /** A turn's first charge comes only behind the last stretch in which it shows something. */
  ghost predicate Underpaid(st: seq<Stretch>, k: nat)
    requires k < |st|
  {
    !Loose(st, k) && LastShown(st, k) && !UpTo(st, k, st[k].id, Pays) && UpTo(st, |st|, st[k].id, Pays)
  }

  lemma {:induction false} StopsShow(items: seq<Item>)
    requires Wellformed(items) && Any(Stops, items)
    ensures Any(Tells, items)
  {
    if !items[0].interrupt {
      assert forall i :: 0 <= i < |items| - 1 ==> items[1..][i] == items[i + 1];
      StopsShow(items[1..]);
    }
  }

  lemma {:induction false} ChargeStays(u: Usage, items: seq<Item>)
    ensures Cost(Option.Some(u), items).Some?
    decreases |items|
  {
    if items != [] {
      ChargeStays(Charged(Option.Some(u), items[0].charge).value, items[1..]);
    }
  }

  lemma {:induction false} CostIffPays(items: seq<Item>)
    ensures Cost(None, items).Some? <==> Any(Pays, items)
  {
    if items != [] {
      if items[0].charge.Some? {
        ChargeStays(Charged(None, items[0].charge).value, items[1..]);
      } else {
        CostIffPays(items[1..]);
      }
    }
  }

  lemma {:induction false} AnyAppend(p: Item -> bool, a: seq<Item>, b: seq<Item>)
    ensures Any(p, a + b) <==> Any(p, a) || Any(p, b)
  {
    if a == [] {
      assert a + b == b;
    } else {
      assert (a + b)[1..] == a[1..] + b;
      AnyAppend(p, a[1..], b);
    }
  }

  lemma {:induction false} OwnAppend(a: seq<Item>, b: seq<Item>, turn: string)
    ensures Own(a + b, turn) == Own(a, turn) + Own(b, turn)
  {
    if a == [] {
      assert a + b == b;
    } else {
      assert (a + b)[1..] == a[1..] + b && (a + b)[0] == a[0];
      OwnAppend(a[1..], b, turn);
      Regroup(if a[0].turn == turn then [a[0]] else [], Own(a[1..], turn), Own(b, turn));
    }
  }

  lemma {:induction false} OwnAll(items: seq<Item>, id: string, turn: string)
    requires forall i :: 0 <= i < |items| ==> items[i].turn == id
    ensures Own(items, turn) == if id == turn then items else []
  {
    if items != [] {
      OwnAll(items[1..], id, turn);
    }
  }

  ghost predicate Somewhere(st: seq<Stretch>, turn: string, p: Item -> bool) {
    exists j :: 0 <= j < |st| && st[j].id == turn && Any(p, st[j].items)
  }

  lemma {:induction false} OwnOfStretches(st: seq<Stretch>, turn: string, p: Item -> bool)
    requires forall i :: 0 <= i < |st| ==> StretchOf(st[i])
    ensures Any(p, Own(Join(st), turn)) <==> Somewhere(st, turn, p)
  {
    if st != [] {
      var t, rest := st[0], st[1..];
      OwnOfStretches(rest, turn, p);
      OwnAppend(t.items, Join(rest), turn);
      OwnAll(t.items, t.id, turn);
      AnyAppend(p, Own(t.items, turn), Own(Join(rest), turn));
      if j :| 0 <= j < |st| && st[j].id == turn && Any(p, st[j].items) {
        if j > 0 { assert rest[j - 1] == st[j]; }
      }
      if j :| 0 <= j < |rest| && rest[j].id == turn && Any(p, rest[j].items) { assert st[j + 1] == rest[j]; }
    }
  }

  lemma CostIffPaid(st: seq<Stretch>, turn: string)
    requires Stretches(st)
    ensures CostOf(Join(st), turn).Some? <==> UpTo(st, |st|, turn, Pays)
  {
    CostIffPays(Own(Join(st), turn));
    OwnOfStretches(st, turn, Pays);
  }

  /** One stretch: the terminal there should be is there, and it is the right one and the only
      one unless the stretch is one of the three. */
  lemma TerminalAgainstIdeal(st: seq<Stretch>, k: nat)
    requires Stretches(st) && k < |st|
    ensures var a, b := Terminals(st, true)[k], IdealTerminals(st)[k];
      (b.Some? ==> a.Some?)
      && (a.Some? && b.None? <==> Reopened(st, k) || Stray(st, k))
      && (a == b <==> !Reopened(st, k) && !Stray(st, k) && !Underpaid(st, k))
  {
    CostIffPaid(st, st[k].id);
    if Shows(st, k) && !ShowsAgain(st, k) { InterruptedSoFar(st, k); }
  }

  /** Where a turn shows something last, whether it is interrupted is known. */
  lemma InterruptedSoFar(st: seq<Stretch>, k: nat)
    requires Stretches(st) && k < |st| && Shows(st, k) && !ShowsAgain(st, k)
    ensures Interrupted(st, st[k].id) <==> UpTo(st, k, st[k].id, Stops)
  {
    if j :| 0 <= j < |st| && st[j].id == st[k].id && Any(Stops, st[j].items) {
      assert StretchOf(st[j]);
      StopsShow(st[j].items);
      assert Shows(st, j);
    }
  }

  lemma EqualParts<T>(shown: seq<T>, x: seq<T>, y: seq<T>, p: seq<T>, q: seq<T>)
    requires |x| >= |y| && |p| >= |q|
    ensures shown + (x + p) == shown + (y + q) <==> x == y && p == q
  {
    if shown + (x + p) == shown + (y + q) {
      assert (shown + (x + p))[|shown|..] == x + p && (shown + (y + q))[|shown|..] == y + q;
      assert x == (x + p)[..|x|] && y == (y + q)[..|y|];
      assert p == (x + p)[|x|..] && q == (y + q)[|y|..];
    }
  }

  lemma {:induction false} LaidEqual<U>(st: seq<Stretch>, a: seq<Option<U>>, b: seq<Option<U>>, k: nat)
    requires k <= |st| == |a| == |b| && forall i :: 0 <= i < |st| && b[i].Some? ==> a[i].Some?
    ensures |Laid(st, a, k)| >= |Laid(st, b, k)|
    ensures Laid(st, a, k) == Laid(st, b, k) <==> forall i :: k <= i < |st| ==> a[i] == b[i]
    decreases |st| - k
  {
    if k < |st| {
      LaidEqual(st, a, b, k + 1);
      var shown, x, y := Tellings<U>(st[k].items), Closing(st, a, k), Closing(st, b, k);
      EqualParts(shown, x, y, Laid(st, a, k + 1), Laid(st, b, k + 1));
    }
  }

  /** For every log: a full read is what it should be exactly when none of its stretches is
      reopened, stray or underpaid; and it never lacks a terminal. */
  lemma FullReadIsIdealIff(rows: seq<Row>)
    ensures var st := StretchesOf(rows);
      Project(rows, true) == Ideal(rows)
      <==> forall k :: 0 <= k < |st| ==> !Reopened(st, k) && !Stray(st, k) && !Underpaid(st, k)
    ensures |Project(rows, true)| >= |Ideal(rows)|
  {
    var st := StretchesOf(rows);
    ReadByStretches(rows, true);
    forall k | 0 <= k < |st|
      ensures var a, b := Terminals(st, true)[k], IdealTerminals(st)[k];
        (b.Some? ==> a.Some?) && (a == b <==> !Reopened(st, k) && !Stray(st, k) && !Underpaid(st, k))
    {
      TerminalAgainstIdeal(st, k);
    }
    LaidEqual(st, Terminals(st, true), IdealTerminals(st), 0);
  }

  // ---------------------------------------------------------------- how often a turn is completed

  function Completions<U>(events: seq<Event<U>>, turn: string): nat {
    if events == [] then 0
    else (if events[0].TurnCompleted? && events[0].turn == turn then 1 else 0) + Completions(events[1..], turn)
  }

  lemma {:induction false} CompletionsAppend<U>(a: seq<Event<U>>, b: seq<Event<U>>, turn: string)
    ensures Completions(a + b, turn) == Completions(a, turn) + Completions(b, turn)
  {
    if a == [] {
      assert a + b == b;
    } else {
      assert (a + b)[1..] == a[1..] + b;
      CompletionsAppend(a[1..], b, turn);
    }
  }

  lemma {:induction false} NoneAmongTellings<U>(items: seq<Item>, turn: string)
    ensures Completions(Tellings<U>(items), turn) == 0
  {
    if items != [] {
      NoneAmongTellings<U>(items[1..], turn);
      CompletionsAppend(Telling<U>(items[0].shows), Tellings<U>(items[1..]), turn);
    }
  }

  function Closings<U>(st: seq<Stretch>, marks: seq<Option<U>>, turn: string, k: nat): nat
    requires k <= |st| == |marks|
    decreases |st| - k
  {
    if k == |st| then 0
    else (if st[k].id == turn && marks[k].Some? then 1 else 0) + Closings(st, marks, turn, k + 1)
  }

  lemma {:induction false} CompletionsLaid<U>(st: seq<Stretch>, marks: seq<Option<U>>, turn: string, k: nat)
    requires k <= |st| == |marks|
    ensures Completions(Laid(st, marks, k), turn) == Closings(st, marks, turn, k)
    decreases |st| - k
  {
    if k < |st| {
      var shown, closing, rest := Tellings<U>(st[k].items), Closing(st, marks, k), Laid(st, marks, k + 1);
      NoneAmongTellings<U>(st[k].items, turn);
      CompletionsAppend(shown, closing + rest, turn);
      CompletionsAppend(closing, rest, turn);
      CompletionsLaid(st, marks, turn, k + 1);
    }
  }

  /** The stretch gets a terminal it should not. */
  ghost predicate Extra(st: seq<Stretch>, k: nat)
    requires k < |st|
  {
    Reopened(st, k) || Stray(st, k)
  }

  ghost function Extras(st: seq<Stretch>, turn: string, k: nat): nat
    requires k <= |st|
    decreases |st| - k
  {
    if k == |st| then 0 else (if st[k].id == turn && Extra(st, k) then 1 else 0) + Extras(st, turn, k + 1)
  }

  lemma {:induction false} ClosingsDiffer<U>(st: seq<Stretch>, a: seq<Option<U>>, b: seq<Option<U>>, turn: string,
                                             k: nat)
    requires k <= |st| == |a| == |b|
    requires forall i :: 0 <= i < |st| ==> (a[i].Some? <==> b[i].Some? || Extra(st, i)) && !(b[i].Some? && Extra(st, i))
    ensures Closings(st, a, turn, k) == Closings(st, b, turn, k) + Extras(st, turn, k)
    decreases |st| - k
  {
    if k < |st| {
      ClosingsDiffer(st, a, b, turn, k + 1);
    }
  }

  lemma ClosingsAgainstIdeal(st: seq<Stretch>, turn: string)
    requires Stretches(st)
    ensures Closings(st, Terminals(st, true), turn, 0)
         == Closings(st, IdealTerminals(st), turn, 0) + Extras(st, turn, 0)
  {
    var a, b := Terminals(st, true), IdealTerminals(st);
    forall i | 0 <= i < |st|
      ensures (a[i].Some? <==> b[i].Some? || Extra(st, i)) && !(b[i].Some? && Extra(st, i))
    {
      TerminalAgainstIdeal(st, i);
    }
    ClosingsDiffer(st, a, b, turn, 0);
  }

  /** A turn that should be completed: it has an id, shows something and is not interrupted. */
  ghost predicate Completable(st: seq<Stretch>, turn: string) {
    turn != "" && Somewhere(st, turn, Tells) && !Interrupted(st, turn)
  }

  lemma {:induction false} ShownLast(st: seq<Stretch>, k: nat) returns (j: nat)
    requires k < |st| && Shows(st, k) && st[k].id != ""
    ensures k <= j < |st| && st[j].id == st[k].id && LastShown(st, j)
    decreases |st| - k
  {
    if ShowsAgain(st, k) {
      var i :| k < i < |st| && st[i].id == st[k].id && Shows(st, i);
      j := ShownLast(st, i);
    } else {
      j := k;
    }
  }

  lemma {:induction false} IdealClosings(st: seq<Stretch>, turn: string, j: nat, k: nat)
    requires k <= |st| && j < |st| && st[j].id == turn && LastShown(st, j) && !Interrupted(st, turn)
    ensures Closings(st, IdealTerminals(st), turn, k) == if k <= j then 1 else 0
    decreases |st| - k
  {
    if k < |st| {
      IdealClosings(st, turn, j, k + 1);
    }
  }

  lemma {:induction false} NoIdealClosings(st: seq<Stretch>, turn: string, k: nat)
    requires k <= |st| && !Completable(st, turn)
    ensures Closings(st, IdealTerminals(st), turn, k) == 0
    decreases |st| - k
  {
    if k < |st| {
      NoIdealClosings(st, turn, k + 1);
    }
  }

  /** For every log and turn: it is completed once if it should be, and once more for each of
      its stretches that is reopened or stray. */
  lemma OneCompletionPerTurn(rows: seq<Row>, turn: string)
    ensures var st := StretchesOf(rows);
      Completions(Project(rows, true), turn) == (if Completable(st, turn) then 1 else 0) + Extras(st, turn, 0)
  {
    var st := StretchesOf(rows);
    ReadByStretches(rows, true);
    CompletionsLaid(st, Terminals(st, true), turn, 0);
    ClosingsAgainstIdeal(st, turn);
    if Completable(st, turn) {
      var k :| 0 <= k < |st| && st[k].id == turn && Any(Tells, st[k].items);
      var j := ShownLast(st, k);
      IdealClosings(st, turn, j, 0);
    } else {
      NoIdealClosings(st, turn, 0);
    }
  }

  lemma {:induction false} ExtraCounts(st: seq<Stretch>, i: nat, k: nat)
    requires k <= i < |st| && Extra(st, i)
    ensures Extras(st, st[i].id, k) >= 1
    decreases |st| - k
  {
    if k < i {
      ExtraCounts(st, i, k + 1);
    }
  }

  lemma SplitThree(a: Item, b: Item, c: Item)
    requires a.turn != b.turn && b.turn != c.turn
    ensures Split([a, b, c]) == [Stretch(a.turn, [a]), Stretch(b.turn, [b]), Stretch(c.turn, [c])]
    ensures Split([b, c]) == [Stretch(b.turn, [b]), Stretch(c.turn, [c])]
  {
    assert [a, b, c][1..] == [b, c] && [b, c][1..] == [c] && [c][1..] == [];
    assert Split([c]) == [Stretch(c.turn, [c])];
  }

  lemma AnyOne(p: Item -> bool, x: Item)
    ensures Any(p, [x]) <==> p(x)
  {
    assert [x][1..] == [];
  }

  /** A run-level row has no turn id. Between two rows of a turn that both show something it
      completes the turn twice. */
  lemma ChipRowSplitsATurn(before: Row, chip: Row, behind: Row)
    requires before.turn == behind.turn != "" && chip.turn == ""
    requires Renders(before.entry).Some? && !before.entry.Interrupt?
    requires Renders(behind.entry).Some? && !behind.entry.Interrupt?
    ensures Completions(Project([before, chip, behind], true), behind.turn) == 2
  {
    var rows, a, b, c := [before, chip, behind], Read(before), Read(chip), Read(behind);
    var st := StretchesOf(rows);
    SplitThree(a, b, c);
    assert Map(Read, rows) == [a, b, c];
    AnyOne(Tells, a);
    AnyOne(Tells, c);
    AnyOne(Stops, a);
    AnyOne(Stops, c);
    assert Shows(st, 0) && Shows(st, 2) && st[0].id == st[2].id;
    assert Reopened(st, 0) && Completable(st, behind.turn);
    assert Extras(st, behind.turn, 2) == 0 && Extras(st, behind.turn, 1) == 0;
    OneCompletionPerTurn(rows, behind.turn);
  }

  /** What such a row shows, when it shows something, completes a turn behind it that shows
      nothing. */
  lemma ChipRowCompletesASilentTurn(chip: Row, behind: Row)
    requires chip.turn == "" != behind.turn && Renders(chip.entry).Some? && Renders(behind.entry).None?
    ensures Completions(Project([chip, behind], true), behind.turn) == 1
  {
    var rows, b, c := [chip, behind], Read(chip), Read(behind);
    var st := StretchesOf(rows);
    SplitThree(c, b, c);
    assert Map(Read, rows) == [b, c];
    AnyOne(Tells, b);
    AnyOne(Tells, c);
    AnyOne(Stops, c);
    assert Shows(st, 0) && !Shows(st, 1) && Loose(st, 0);
    assert Stray(st, 1);
    assert Extras(st, behind.turn, 1) == 1;
    OneCompletionPerTurn(rows, behind.turn);
  }

  // ---------------------------------------------------------------- a turn's cost

  function ChargesOf(items: seq<Item>): seq<Charge> {
    if items == [] then []
    else (if items[0].charge.Some? then [items[0].charge.value] else []) + ChargesOf(items[1..])
  }

  function Total(charges: seq<Charge>): Charge {
    if charges == [] then Charge(0, 0, 0)
    else
      var c, rest := charges[0], Total(charges[1..]);
      Charge(c.input + rest.input, c.output + rest.output, c.total + rest.total)
  }

  /** What the calls cost on top of `u`: their sum, with the last call's input as the final
      one. */
  function Bill(u: Option<Usage>, charges: seq<Charge>): Option<Usage> {
    if charges == [] then u
    else
      var before, t := if u.Some? then u.value else NOTHING, Total(charges);
      Option.Some(Usage(before.input + t.input, before.output + t.output, before.total + t.total,
                        charges[|charges| - 1].input))
  }

  lemma BillOneMore(u: Option<Usage>, c: Charge, rest: seq<Charge>)
    ensures Bill(u, [c] + rest) == Bill(Charged(u, Option.Some(c)), rest)
  {
    var cs := [c] + rest;
    assert cs[1..] == rest && (rest != [] ==> cs[|cs| - 1] == rest[|rest| - 1]);
    var a, b := Bill(u, cs), Bill(Charged(u, Option.Some(c)), rest);
    assert Total(cs).total == c.total + Total(rest).total;
    assert a.value.input == b.value.input && a.value.output == b.value.output && a.value.total == b.value.total;
  }

  lemma {:induction false} CostIsTheSum(u: Option<Usage>, items: seq<Item>)
    ensures Cost(u, items) == Bill(u, ChargesOf(items))
    decreases |items|
  {
    if items != [] {
      CostIsTheSum(Charged(u, items[0].charge), items[1..]);
      if items[0].charge.Some? {
        BillOneMore(u, items[0].charge.value, ChargesOf(items[1..]));
      } else {
        assert ChargesOf(items) == ChargesOf(items[1..]);
      }
    }
  }

  // ---------------------------------------------------------------- windows

  /** What the rows show, without the synthesised terminals. */
  function Rest<U>(events: seq<Event<U>>): seq<Shown> {
    if events == [] then [] else (if events[0].Told? then [events[0].shown] else []) + Rest(events[1..])
  }

  lemma {:induction false} RestAppend<U>(a: seq<Event<U>>, b: seq<Event<U>>)
    ensures Rest(a + b) == Rest(a) + Rest(b)
  {
    if a == [] {
      assert a + b == b;
    } else {
      var first := if a[0].Told? then [a[0].shown] else [];
      assert (a + b)[1..] == a[1..] + b && (a + b)[0] == a[0];
      RestAppend(a[1..], b);
      Regroup(first, Rest(a[1..]), Rest(b));
    }
  }

  function ShownOf(items: seq<Item>): seq<Shown> {
    if items == [] then []
    else (if items[0].shows.Some? then [items[0].shows.value] else []) + ShownOf(items[1..])
  }

  lemma StepShows(s: State, item: Item)
    ensures Rest(Absorb(Boundary(s, item), item).events)
         == Rest(s.events) + if item.shows.Some? then [item.shows.value] else []
  {
    var b := Boundary(s, item);
    if b != s {
      RestAppend(s.events, [Terminal(s, item.at)]);
      assert Rest([Terminal(s, item.at)]) == [] && Rest(s.events) + [] == Rest(s.events);
    }
    RestAppend(b.events, Telling(item.shows));
  }

  lemma {:induction false} RunShows(s: State, items: seq<Item>)
    ensures Rest(Run(s, items).events) == Rest(s.events) + ShownOf(items)
    decreases |items|
  {
    if items == [] {
      assert Rest(s.events) + [] == Rest(s.events);
    } else {
      var rest := items[1..];
      StepShows(s, items[0]);
      RunShows(Absorb(Boundary(s, items[0]), items[0]), rest);
      Regroup(Rest(s.events), if items[0].shows.Some? then [items[0].shows.value] else [], ShownOf(rest));
    }
  }

  lemma {:induction false} RestSettles(usage: map<string, Usage>, events: seq<Event<bool>>)
    ensures Rest(Map(Settled(usage), events)) == Rest(events)
  {
    if events != [] {
      var settled := Map(Settled(usage), events);
      assert settled[1..] == Map(Settled(usage), events[1..]);
      RestSettles(usage, events[1..]);
    }
  }

  lemma WindowShows(rows: seq<Row>, atEnd: bool)
    ensures Rest(Project(rows, atEnd)) == ShownOf(Map(Read, rows))
  {
    var s := Run(INITIAL, Map(Read, rows));
    RunShows(INITIAL, Map(Read, rows));
    RestSettles(s.usage, Finish(s, atEnd));
    if atEnd && Open(s) {
      RestAppend(s.events, [Terminal(s, s.last)]);
    }
  }

  lemma {:induction false} ShownAppend(a: seq<Item>, b: seq<Item>)
    ensures ShownOf(a + b) == ShownOf(a) + ShownOf(b)
  {
    if a == [] {
      assert a + b == b;
    } else {
      var first := if a[0].shows.Some? then [a[0].shows.value] else [];
      assert (a + b)[1..] == a[1..] + b && (a + b)[0] == a[0];
      ShownAppend(a[1..], b);
      Regroup(first, ShownOf(a[1..]), ShownOf(b));
    }
  }

  // What a log shows, told by its rows.

  predicate HasInk(text: string) {
    exists c :: c in text && !IsSpace(c)
  }

  /** A user's or the assistant's message, however its role is spelt, that has something to
      show. */
  predicate Spoken(entry: Entry) {
    entry.Message?
    && (Lowered(TrimSpace(entry.role)) == "user" || Lowered(TrimSpace(entry.role)) == "assistant")
    && (HasInk(entry.content) || HasInk(entry.reasoning) || entry.attachments > 0)
  }

  predicate Visible(row: Row) {
    Spoken(row.entry) || row.entry.ToolStart? || row.entry.ToolEnd? || row.entry.Replaced? || row.entry.Cancelled?
    || row.entry.Interrupt? || (row.entry.Extension? && row.entry.payload)
  }

  /** The event tells the row: its message with role, texts and number of attachments, or what
      its kind stands for. */
  predicate TellsRow(e: Shown, row: Row) {
    e.id == row.id && e.turn == row.turn && e.at == row.at
    && match e.kind
       case MessageCompleted(role, content, reasoning, attachments) =>
         Spoken(row.entry) && role == Lowered(TrimSpace(row.entry.role)) && content == row.entry.content
         && reasoning == row.entry.reasoning && attachments == row.entry.attachments
       case ToolCallStarted => row.entry == ToolStart
       case ToolCallFinished => row.entry == ToolEnd
       case ContextCompacted => row.entry == Replaced
       case CancelledTurn(reason) =>
         row.entry.Cancelled? && reason == if row.entry.reason == "" then "cancelled" else row.entry.reason
       case ApprovalRequired => row.entry == Interrupt
       case ChipShown(chip) => row.entry == Extension(chip, true)
  }

  lemma InkTrims(text: string)
    ensures TrimSpace(text) == "" <==> !HasInk(text)
  {
    BlankMeans(text);
  }

  lemma RowIsTold(row: Row)
    ensures Read(row).shows.Some? <==> Visible(row)
    ensures Read(row).shows.Some? ==> TellsRow(Read(row).shows.value, row)
  {
    if row.entry.Message? {
      InkTrims(row.entry.content);
      InkTrims(row.entry.reasoning);
    }
  }

  lemma {:induction false} RowsAreTold(rows: seq<Row>)
    ensures var shown, visible := ShownOf(Map(Read, rows)), Filter(Visible, rows);
      |shown| == |visible| && forall i :: 0 <= i < |shown| ==> TellsRow(shown[i], visible[i])
  {
    if rows != [] {
      RowsAreTold(rows[1..]);
      RowIsTold(rows[0]);
      assert Map(Read, rows)[1..] == Map(Read, rows[1..]);
    }
  }

  /** Every read of every log shows exactly the visible rows, each once and in order, as what
      they are. */
  lemma VisibleRowsAreShown(rows: seq<Row>, atEnd: bool)
    ensures var shown, visible := Rest(Project(rows, atEnd)), Filter(Visible, rows);
      |shown| == |visible| && forall i :: 0 <= i < |shown| ==> TellsRow(shown[i], visible[i])
  {
    WindowShows(rows, atEnd);
    RowsAreTold(rows);
  }

  /** What a row costs: an assistant's message its provider's usage, a model call its input and
      output, with the provider's own total when there is one. */
  predicate Paid(entry: Entry, c: Charge) {
    (entry.Message? && Lowered(TrimSpace(entry.role)) == "assistant" && entry.usage == Option.Some(c))
    || (entry.ModelSpanEnd? && entry.spend == Option.Some((c.input, c.output))
        && c.total == if entry.raw.Some? then entry.raw.value else c.input + c.output)
  }

  lemma RowIsCharged(row: Row, c: Charge)
    ensures Read(row).charge == Option.Some(c) <==> Paid(row.entry, c)
  {
  }

  function RestOfPages(pages: seq<seq<Row>>, atEnd: seq<bool>): seq<Shown>
    requires |pages| == |atEnd|
  {
    if pages == [] then [] else Rest(Project(pages[0], atEnd[0])) + RestOfPages(pages[1..], atEnd[1..])
  }

  lemma {:induction false} PagesShow(pages: seq<seq<Row>>, atEnd: seq<bool>)
    requires |atEnd| == |pages|
    ensures RestOfPages(pages, atEnd) == ShownOf(Map(Read, Flatten(pages)))
  {
    if pages != [] {
      var first, others := pages[0], Flatten(pages[1..]);
      WindowShows(first, atEnd[0]);
      PagesShow(pages[1..], atEnd[1..]);
      MapAppend(Read, first, others);
      ShownAppend(Map(Read, first), Map(Read, others));
    }
  }

  /** However a log is cut into windows, and wherever terminals are synthesised, the windows'
      own events put together are those of the full read: ids, kinds, turns and times. */
  lemma WindowsRebuildTheRead(pages: seq<seq<Row>>, atEnd: seq<bool>)
    requires |atEnd| == |pages|
    ensures RestOfPages(pages, atEnd) == Rest(Project(Flatten(pages), true))
  {
    PagesShow(pages, atEnd);
    WindowShows(Flatten(pages), true);
  }

  // ---------------------------------------------------------------- the terminals of a window

  /** The number of the stretch the i-th row belongs to. */
  function StretchAt(items: seq<Item>, i: nat): nat
    requires i < |items|
  {
    if i == 0 then 0 else (if items[0].turn == items[1].turn then 0 else 1) + StretchAt(items[1..], i - 1)
  }

  lemma {:induction false} RowInStretch(items: seq<Item>, i: nat)
    requires i < |items|
    ensures var st, k := Split(items), StretchAt(items, i);
      k < |st| && st[k].id == items[i].turn && items[i] in st[k].items
  {
    if i > 0 {
      var rest, k := Split(items[1..]), StretchAt(items[1..], i - 1);
      RowInStretch(items[1..], 0);
      RowInStretch(items[1..], i - 1);
      if items[0].turn == items[1].turn {
        assert k > 0 ==> Split(items)[k] == rest[k];
      } else {
        assert Split(items)[k + 1] == rest[k];
      }
    }
  }

  lemma {:induction false} RowOfStretch(items: seq<Item>, k: nat, x: Item) returns (i: nat)
    requires k < |Split(items)| && x in Split(items)[k].items
    ensures i < |items| && items[i] == x && StretchAt(items, i) == k
  {
    var rest := Split(items[1..]);
    if k == 0 && x == items[0] {
      i := 0;
    } else {
      if items[1..] != [] { RowInStretch(items[1..], 0); }
      var joined := rest != [] && rest[0].id == items[0].turn;
      var j := if joined then k else k - 1;
      assert j > 0 || !joined ==> rest[j] == Split(items)[k];
      i := RowOfStretch(items[1..], j, x);
      i := i + 1;
    }
  }

  lemma {:induction false} StretchAtTake(items: seq<Item>, n: nat, i: nat)
    requires i < n <= |items|
    ensures StretchAt(items[..n], i) == StretchAt(items, i)
  {
    if i > 0 {
      assert items[..n][1..] == items[1..][..n - 1];
      StretchAtTake(items[1..], n - 1, i - 1);
    }
  }

  lemma {:induction false} StretchAtDrop(items: seq<Item>, a: nat, i: nat)
    requires a <= i < |items|
    ensures StretchAt(items, i) == StretchAt(items, a) + StretchAt(items[a..], i - a)
  {
    if a == 0 {
      assert items[0..] == items;
    } else {
      assert items[a..] == items[1..][a - 1..];
      StretchAtDrop(items[1..], a - 1, i - 1);
    }
  }

  lemma StretchAtWindow(items: seq<Item>, a: nat, i: nat, r: nat)
    requires a <= r < i <= |items|
    ensures StretchAt(items, r) == StretchAt(items, a) + StretchAt(items[a..i], r - a)
  {
    assert items[a..i] == items[a..][..i - a];
    StretchAtDrop(items, a, r);
    StretchAtTake(items[a..], i - a, r - a);
  }

  lemma {:induction false} AnyIn(p: Item -> bool, items: seq<Item>)
    ensures Any(p, items) <==> exists x :: x in items && p(x)
  {
    if items != [] {
      assert items == [items[0]] + items[1..];
      AnyIn(p, items[1..]);
    }
  }

  /** The stretches `w` lie in the stretches of `f` from the first-th on. */
  ghost predicate Within(w: seq<Stretch>, f: seq<Stretch>, first: nat) {
    first + |w| <= |f| && forall j :: 0 <= j < |w| ==> PartOf(w[j], f[first + j])
  }

  ghost predicate PartOf(t: Stretch, u: Stretch) {
    t.id == u.id && forall x :: x in t.items ==> x in u.items
  }

  /** The stretch of the window's r-th row is part of the stretch of the log's (a + r)-th. */
  lemma SameStretch(items: seq<Item>, window: seq<Item>, a: nat, i: nat, r: nat)
    requires a < i <= |items| && window == items[a..i] && r < |window|
    ensures var w, f, j, k := Split(window), Split(items), StretchAt(window, r), StretchAt(items, a + r);
      j < |w| && k < |f| && w[j].id == f[k].id == items[a + r].turn && k == StretchAt(items, a) + j
      && window[r] in f[k].items
  {
    assert window[r] == items[a + r];
    RowInStretch(window, r);
    RowInStretch(items, a + r);
    StretchAtWindow(items, a, i, a + r);
  }

  lemma RowInBoth(items: seq<Item>, window: seq<Item>, a: nat, i: nat, j: nat, x: Item)
    requires a < i <= |items| && window == items[a..i] && j < |Split(window)| && x in Split(window)[j].items
    ensures var f, k := Split(items), StretchAt(items, a) + j;
      k < |f| && Split(window)[j].id == f[k].id && x in f[k].items
  {
    var r := RowOfStretch(window, j, x);
    SameStretch(items, window, a, i, r);
  }

  lemma PartInLog(items: seq<Item>, window: seq<Item>, a: nat, i: nat, j: nat)
    requires a < i <= |items| && window == items[a..i] && j < |Split(window)| && StretchOf(Split(window)[j])
    ensures var f, k := Split(items), StretchAt(items, a) + j; k < |f| && PartOf(Split(window)[j], f[k])
  {
    var t, f, k := Split(window)[j], Split(items), StretchAt(items, a) + j;
    assert t.items[0] in t.items;
    RowInBoth(items, window, a, i, j, t.items[0]);
    forall x | x in t.items ensures x in f[k].items { RowInBoth(items, window, a, i, j, x); }
  }

  lemma WindowWithin(items: seq<Item>, a: nat, i: nat)
    requires a < i <= |items| && Wellformed(items)
    ensures Within(Split(items[a..i]), Split(items), StretchAt(items, a))
  {
    var window := items[a..i];
    var w, f, first := Split(window), Split(items), StretchAt(items, a);
    assert w != [] && Stretches(w) by { SplitJoins(window); }
    PartInLog(items, window, a, i, |w| - 1);
    forall j | 0 <= j < |w| ensures PartOf(w[j], f[first + j]) { PartInLog(items, window, a, i, j); }
  }

  lemma AnyPart(t: Stretch, u: Stretch, p: Item -> bool)
    requires PartOf(t, u)
    ensures Any(p, t.items) ==> Any(p, u.items)
  {
    AnyIn(p, t.items);
    AnyIn(p, u.items);
  }

  lemma UpToWithin(w: seq<Stretch>, f: seq<Stretch>, first: nat, j: nat, turn: string, p: Item -> bool)
    requires Within(w, f, first) && j < |w|
    ensures UpTo(w, j, turn, p) ==> UpTo(f, first + j, turn, p)
  {
    if UpTo(w, j, turn, p) {
      var i :| 0 <= i <= j && i < |w| && w[i].id == turn && Any(p, w[i].items);
      AnyPart(w[i], f[first + i], p);
      assert first + i <= first + j;
    }
  }

  lemma CarriedWithin(w: seq<Stretch>, f: seq<Stretch>, first: nat, k: nat)
    requires Within(w, f, first) && k < |w|
    ensures Carried(w, k) ==> Carried(f, first + k)
  {
    if Carried(w, k) {
      var j :| 0 <= j < k && Shows(w, j) && forall i :: j <= i < k ==> Loose(w, i);
      AnyPart(w[j], f[first + j], Tells);
      assert Shows(f, first + j);
      forall i | first + j <= i < first + k ensures Loose(f, i) {
        assert Loose(w, i - first);
        UpToWithin(w, f, first, i - first, w[i - first].id, Stops);
      }
    }
  }

  /** What closes a stretch in a window closes it in the whole log, unless an interrupt does
      not. */
  lemma ClosesWithin(w: seq<Stretch>, f: seq<Stretch>, first: nat, k: nat)
    requires Within(w, f, first) && k < |w| && Closes(w, k)
    ensures Closes(f, first + k) <==> !UpTo(f, first + k, w[k].id, Stops)
  {
    AnyPart(w[k], f[first + k], Tells);
    CarriedWithin(w, f, first, k);
  }

  /** A row of the turn up to the k-th stretch, outside the window rows[a..i], interrupts it. */
  ghost predicate StoppedOutside(items: seq<Item>, a: nat, i: nat, k: nat, turn: string) {
    exists q :: 0 <= q < |items| && (q < a || i <= q) && StopsAt(items, q, k, turn)
  }

  ghost predicate StopsAt(items: seq<Item>, q: nat, k: nat, turn: string)
    requires q < |items|
  {
    StretchAt(items, q) <= k && items[q].turn == turn && items[q].interrupt
  }

  lemma StopsUpTo(items: seq<Item>, q: nat, k: nat, turn: string)
    requires q < |items| && StopsAt(items, q, k, turn)
    ensures UpTo(Split(items), k, turn, Stops)
  {
    RowInStretch(items, q);
    AnyIn(Stops, Split(items)[StretchAt(items, q)].items);
  }

  lemma UpToStops(items: seq<Item>, k: nat, turn: string) returns (q: nat)
    requires UpTo(Split(items), k, turn, Stops)
    ensures q < |items| && StopsAt(items, q, k, turn)
  {
    var f := Split(items);
    var j :| 0 <= j <= k && j < |f| && f[j].id == turn && Any(Stops, f[j].items);
    AnyIn(Stops, f[j].items);
    var x :| x in f[j].items && Stops(x);
    q := RowOfStretch(items, j, x);
    RowInStretch(items, q);
  }

  /** When a stretch of the window has no interrupt so far, one in the log stands outside. */
  lemma StoppedOutsideIff(items: seq<Item>, window: seq<Item>, a: nat, i: nat, j: nat, k: nat, turn: string)
    requires a < i <= |items| && window == items[a..i] && k == StretchAt(items, a) + j
    requires !UpTo(Split(window), j, turn, Stops)
    ensures UpTo(Split(items), k, turn, Stops) <==> StoppedOutside(items, a, i, k, turn)
  {
    if UpTo(Split(items), k, turn, Stops) {
      var q := UpToStops(items, k, turn);
      if a <= q < i {
        assert StretchAt(window, q - a) <= j by { StretchAtWindow(items, a, i, q); }
        assert window[q - a] == items[q];
        StopsUpTo(window, q - a, j, turn);
      }
    }
    if StoppedOutside(items, a, i, k, turn) {
      var q :| 0 <= q < |items| && (q < a || i <= q) && StopsAt(items, q, k, turn);
      StopsUpTo(items, q, k, turn);
    }
  }

  lemma ReadWindow(rows: seq<Row>, a: nat, i: nat)
    requires a <= i <= |rows|
    ensures Map(Read, rows[a..i]) == Map(Read, rows)[a..i] && Wellformed(Map(Read, rows))
  {
  }

  lemma TerminalWithin(w: seq<Stretch>, f: seq<Stretch>, first: nat, j: nat, k: nat, atEnd: bool)
    requires Within(w, f, first) && j < |w| && k == first + j && Terminals(w, atEnd)[j].Some?
    ensures !UpTo(w, j, w[j].id, Stops)
    ensures k < |f| && (Terminals(f, true)[k] == Terminals(w, atEnd)[j]
                        <==> !UpTo(f, k, w[j].id, Stops) && CostAt(w, j) == CostAt(f, k))
  {
    ClosesWithin(w, f, first, j);
  }

  lemma WindowTerminal(items: seq<Item>, window: seq<Item>, a: nat, i: nat, j: nat, k: nat, atEnd: bool)
    requires a < i <= |items| && window == items[a..i] && Wellformed(items)
    requires j < |Split(window)| && k == StretchAt(items, a) + j && Terminals(Split(window), atEnd)[j].Some?
    ensures var w, f := Split(window), Split(items);
      k < |f| && (Terminals(f, true)[k] == Terminals(w, atEnd)[j]
                  <==> !StoppedOutside(items, a, i, k, w[j].id) && CostAt(w, j) == CostAt(f, k))
  {
    assert Within(Split(window), Split(items), StretchAt(items, a)) by { WindowWithin(items, a, i); }
    TerminalWithin(Split(window), Split(items), StretchAt(items, a), j, k, atEnd);
    StoppedOutsideIff(items, window, a, i, j, k, Split(window)[j].id);
  }

  lemma WindowTerminalAt(items: seq<Item>, window: seq<Item>, a: nat, i: nat, atEnd: bool, r: nat)
    requires a <= r < i <= |items| && window == items[a..i] && Wellformed(items)
    ensures var w, f, j, k := Split(window), Split(items), StretchAt(window, r - a), StretchAt(items, r);
      j < |w| && k < |f| && w[j].id == f[k].id == items[r].turn
      && (Terminals(w, atEnd)[j].Some? ==>
            (Terminals(f, true)[k] == Terminals(w, atEnd)[j]
             <==> !StoppedOutside(items, a, i, k, items[r].turn) && CostAt(w, j) == CostAt(f, k)))
  {
    var w, j, k := Split(window), StretchAt(window, r - a), StretchAt(items, r);
    SameStretch(items, window, a, i, r - a);
    if Terminals(w, atEnd)[j].Some? {
      WindowTerminal(items, window, a, i, j, k, atEnd);
    }
  }

  /** For every window of every log, backward or forward, and every terminal the window puts
      down, at its end or inside it: the full read has the same terminal behind that stretch
      exactly when no row outside the window, up to the end of the stretch, interrupts the turn
      and the terminals tell the same cost. */
  lemma WindowTerminalIff(rows: seq<Row>, a: nat, i: nat, atEnd: bool, r: nat)
    requires a <= r < i <= |rows|
    ensures var items, window := Map(Read, rows), Map(Read, rows[a..i]);
      var w, f, j, k := Split(window), Split(items), StretchAt(window, r - a), StretchAt(items, r);
      j < |w| && k < |f| && w[j].id == f[k].id == rows[r].turn
      && Project(rows[a..i], atEnd) == Laid(w, Terminals(w, atEnd), 0)
      && Project(rows, true) == Laid(f, Terminals(f, true), 0)
      && (Terminals(w, atEnd)[j].Some? ==>
            (Terminals(f, true)[k] == Terminals(w, atEnd)[j]
             <==> !StoppedOutside(items, a, i, k, rows[r].turn) && CostAt(w, j) == CostAt(f, k)))
  {
    ReadWindow(rows, a, i);
    WindowTerminalAt(Map(Read, rows), Map(Read, rows[a..i]), a, i, atEnd, r);
    ReadByStretches(rows[a..i], atEnd);
    ReadByStretches(rows, true);
  }

  // ---------------------------------------------------------------- turns whose rows stand together

  /** The rows of the turn stand together. */
  ghost predicate Together(rows: seq<Row>, turn: string) {
    exists lo: nat, hi: nat :: TurnSpans(rows, turn, lo, hi)
  }

  ghost predicate TurnSpans(rows: seq<Row>, turn: string, lo: nat, hi: nat) {
    lo <= hi <= |rows| && forall i :: 0 <= i < |rows| ==> (rows[i].turn == turn <==> lo <= i < hi)
  }

  /** A completion of the turn with this cost is among the events. */
  ghost predicate Completes(events: seq<Event<Option<Usage>>>, turn: string, cost: Option<Usage>) {
    exists i :: 0 <= i < |events| && events[i].TurnCompleted? && events[i].turn == turn && events[i].usage == cost
  }

  lemma CompletesAppend(a: seq<Event<Option<Usage>>>, b: seq<Event<Option<Usage>>>, turn: string, cost: Option<Usage>)
    ensures Completes(a + b, turn, cost) <==> Completes(a, turn, cost) || Completes(b, turn, cost)
  {
    var all := a + b;
    if i :| 0 <= i < |all| && all[i].TurnCompleted? && all[i].turn == turn && all[i].usage == cost {
      assert if i < |a| then a[i] == all[i] else b[i - |a|] == all[i];
    }
    if i :| 0 <= i < |a| && a[i].TurnCompleted? && a[i].turn == turn && a[i].usage == cost { assert all[i] == a[i]; }
    if i :| 0 <= i < |b| && b[i].TurnCompleted? && b[i].turn == turn && b[i].usage == cost {
      assert all[|a| + i] == b[i];
    }
  }

  lemma {:induction false} TellingsComplete(items: seq<Item>, turn: string, cost: Option<Usage>)
    ensures !Completes(Tellings(items), turn, cost)
  {
    if items != [] {
      TellingsComplete(items[1..], turn, cost);
      CompletesAppend(Telling(items[0].shows), Tellings(items[1..]), turn, cost);
    }
  }

  /** The k-th stretch is the turn's and has a terminal with this cost. */
  ghost predicate MarkedAt(st: seq<Stretch>, marks: seq<Option<Option<Usage>>>, k: nat, turn: string,
                           cost: Option<Usage>)
    requires k < |st| == |marks|
  {
    st[k].id == turn && marks[k] == Option.Some(cost)
  }

  lemma ClosingCompletes(st: seq<Stretch>, marks: seq<Option<Option<Usage>>>, k: nat, turn: string, cost: Option<Usage>)
    requires k < |st| == |marks|
    ensures Completes(Closing(st, marks, k), turn, cost) <==> MarkedAt(st, marks, k, turn, cost)
  {
    if MarkedAt(st, marks, k, turn, cost) { assert Closing(st, marks, k)[0].TurnCompleted?; }
  }

  lemma {:induction false} CompletesLaid(st: seq<Stretch>, marks: seq<Option<Option<Usage>>>, turn: string,
                                         cost: Option<Usage>, k: nat)
    requires k <= |st| == |marks|
    ensures Completes(Laid(st, marks, k), turn, cost)
       <==> exists i :: k <= i < |st| && MarkedAt(st, marks, i, turn, cost)
    decreases |st| - k
  {
    if k < |st| {
      var shown, closing, rest := Tellings<Option<Usage>>(st[k].items), Closing(st, marks, k), Laid(st, marks, k + 1);
      TellingsComplete(st[k].items, turn, cost);
      ClosingCompletes(st, marks, k, turn, cost);
      CompletesLaid(st, marks, turn, cost, k + 1);
      CompletesAppend(closing, rest, turn, cost);
      CompletesAppend(shown, closing + rest, turn, cost);
    }
  }

  lemma {:induction false} SameTurnSameStretch(items: seq<Item>, i: nat)
    requires i < |items| && forall j :: 0 <= j <= i ==> items[j].turn == items[0].turn
    ensures StretchAt(items, i) == 0
  {
    if i > 0 { SameTurnSameStretch(items[1..], i - 1); }
  }

  lemma SpanIsOneStretch(rows: seq<Row>, turn: string, lo: nat, hi: nat, q: nat)
    requires TurnSpans(rows, turn, lo, hi) && lo <= q < hi
    ensures StretchAt(Map(Read, rows), q) == StretchAt(Map(Read, rows), lo)
  {
    var items := Map(Read, rows);
    forall j | 0 <= j <= q - lo ensures items[lo..][j].turn == turn { assert items[lo..][j] == Read(rows[lo + j]); }
    StretchAtDrop(items, lo, q);
    SameTurnSameStretch(items[lo..], q - lo);
  }

  /** Of a turn whose rows stand together all rows are in one stretch. */
  lemma OneStretch(rows: seq<Row>, turn: string, k: nat)
    requires Together(rows, turn) && k < |StretchesOf(rows)| && StretchesOf(rows)[k].id == turn
    ensures forall q :: 0 <= q < |rows| && rows[q].turn == turn ==> StretchAt(Map(Read, rows), q) == k
    ensures forall i :: 0 <= i < |StretchesOf(rows)| && StretchesOf(rows)[i].id == turn ==> i == k
  {
    var items, st := Map(Read, rows), StretchesOf(rows);
    var lo: nat, hi: nat :| TurnSpans(rows, turn, lo, hi);
    assert Stretches(st) by { SplitJoins(items); }
    forall i | 0 <= i < |st| && st[i].id == turn ensures lo < |items| && i == StretchAt(items, lo) {
      assert StretchOf(st[i]) && st[i].items[0] in st[i].items;
      var q := RowOfStretch(items, i, st[i].items[0]);
      RowInStretch(items, q);
      assert items[q] == Read(rows[q]);
      SpanIsOneStretch(rows, turn, lo, hi, q);
    }
    forall q | 0 <= q < |rows| && rows[q].turn == turn ensures StretchAt(items, q) == k {
      SpanIsOneStretch(rows, turn, lo, hi, q);
    }
  }

  lemma {:induction false} NoCostBeyond(st: seq<Stretch>, k: nat, turn: string)
    requires k < |st| && forall i :: 0 <= i < |st| && st[i].id == turn ==> i == k
    ensures UpTo(st, |st|, turn, Pays) ==> UpTo(st, k, turn, Pays)
  {
    if i :| 0 <= i <= |st| && i < |st| && st[i].id == turn && Any(Pays, st[i].items) { assert i <= k; }
  }

  lemma WholeCost(rows: seq<Row>, turn: string, k: nat)
    requires Together(rows, turn) && k < |StretchesOf(rows)| && StretchesOf(rows)[k].id == turn
    ensures CostAt(StretchesOf(rows), k) == CostOf(Map(Read, rows), turn)
  {
    var st := StretchesOf(rows);
    assert Join(st) == Map(Read, rows) && Stretches(st) by { SplitJoins(Map(Read, rows)); }
    assert forall i :: 0 <= i < |st| && st[i].id == turn ==> i == k by { OneStretch(rows, turn, k); }
    NoCostBeyond(st, k, turn);
    CostIffPaid(st, turn);
  }

  /** A row of the turn outside the window rows[a..i] interrupts it. */
  ghost predicate InterruptedOutside(rows: seq<Row>, a: nat, i: nat, turn: string) {
    exists q :: 0 <= q < |rows| && (q < a || i <= q) && rows[q].turn == turn && rows[q].entry.Interrupt?
  }

  lemma StoppedWhenTogether(rows: seq<Row>, a: nat, i: nat, turn: string, k: nat)
    requires Together(rows, turn) && k < |StretchesOf(rows)| && StretchesOf(rows)[k].id == turn
    ensures StoppedOutside(Map(Read, rows), a, i, k, turn) <==> InterruptedOutside(rows, a, i, turn)
  {
    var items := Map(Read, rows);
    assert forall q :: 0 <= q < |rows| && rows[q].turn == turn ==> StretchAt(items, q) == k by {
      OneStretch(rows, turn, k);
    }
    if q :| 0 <= q < |items| && (q < a || i <= q) && StopsAt(items, q, k, turn) { assert items[q] == Read(rows[q]); }
    if q :| 0 <= q < |rows| && (q < a || i <= q) && rows[q].turn == turn && rows[q].entry.Interrupt? {
      assert items[q] == Read(rows[q]);
      assert StopsAt(items, q, k, turn);
    }
  }

  lemma TogetherInWindow(rows: seq<Row>, a: nat, i: nat, turn: string)
    requires a <= i <= |rows| && Together(rows, turn)
    ensures Together(rows[a..i], turn)
  {
    var lo: nat, hi: nat :| TurnSpans(rows, turn, lo, hi);
    var from := if lo < a then 0 else if i < lo then i - a else lo - a;
    var to := if hi < a then 0 else if i < hi then i - a else hi - a;
    assert forall q :: 0 <= q < i - a ==> rows[a..i][q] == rows[a + q];
    assert TurnSpans(rows[a..i], turn, from, to);
  }

  lemma CompletesIff(rows: seq<Row>, atEnd: bool, turn: string, cost: Option<Usage>)
    ensures var st := StretchesOf(rows);
      Completes(Project(rows, atEnd), turn, cost)
      <==> exists k :: 0 <= k < |st| && MarkedAt(st, Terminals(st, atEnd), k, turn, cost)
  {
    var st := StretchesOf(rows);
    ReadByStretches(rows, atEnd);
    CompletesLaid(st, Terminals(st, atEnd), turn, cost, 0);
  }

  /** What a window's stretch of the turn is in the log. */
  lemma StretchInLog(rows: seq<Row>, a: nat, i: nat, atEnd: bool, turn: string, j: nat) returns (k: nat)
    requires a < i <= |rows| && Together(rows, turn)
    requires j < |StretchesOf(rows[a..i])| && StretchesOf(rows[a..i])[j].id == turn
    requires Terminals(StretchesOf(rows[a..i]), atEnd)[j].Some?
    ensures var w, f := StretchesOf(rows[a..i]), StretchesOf(rows);
      k < |f| && f[k].id == turn
      && (Terminals(f, true)[k] == Terminals(w, atEnd)[j]
          <==> !InterruptedOutside(rows, a, i, turn) && CostAt(w, j) == CostAt(f, k))
  {
    var items, window := Map(Read, rows), Map(Read, rows[a..i]);
    ReadWindow(rows, a, i);
    k := StretchAt(items, a) + j;
    WindowTerminal(items, window, a, i, j, k, atEnd);
    assert PartOf(Split(window)[j], Split(items)[k]) by { WindowWithin(items, a, i); }
    StoppedWhenTogether(rows, a, i, turn, k);
  }

  lemma MarkedOnce(st: seq<Stretch>, marks: seq<Option<Option<Usage>>>, k: nat, turn: string, cost: Option<Usage>)
    requires k < |st| == |marks| && st[k].id == turn && forall i :: 0 <= i < |st| && st[i].id == turn ==> i == k
    ensures (exists i :: 0 <= i < |st| && MarkedAt(st, marks, i, turn, cost)) <==> marks[k] == Option.Some(cost)
  {
    if marks[k] == Option.Some(cost) { assert MarkedAt(st, marks, k, turn, cost); }
  }

  /** Whatever window completes a turn whose rows stand together, at its end or inside it: it
      tells what the turn cost in the window. The full read has that completion exactly when no
      row of the turn outside the window, before it or behind it, interrupts the turn, and the
      turn cost the same in the whole log; no usage is not the same as none spent. */
  lemma WindowCompletionIsGenuineIff(rows: seq<Row>, a: nat, i: nat, atEnd: bool, turn: string, cost: Option<Usage>)
    requires a <= i <= |rows| && Together(rows, turn) && Completes(Project(rows[a..i], atEnd), turn, cost)
    ensures cost == CostOf(Map(Read, rows[a..i]), turn)
    ensures Completes(Project(rows, true), turn, cost)
       <==> !InterruptedOutside(rows, a, i, turn) && cost == CostOf(Map(Read, rows), turn)
  {
    var w, f := StretchesOf(rows[a..i]), StretchesOf(rows);
    CompletesIff(rows[a..i], atEnd, turn, cost);
    var j :| 0 <= j < |w| && MarkedAt(w, Terminals(w, atEnd), j, turn, cost);
    assert CostAt(w, j) == CostOf(Map(Read, rows[a..i]), turn) by {
      TogetherInWindow(rows, a, i, turn);
      WholeCost(rows[a..i], turn, j);
    }
    var k := StretchInLog(rows, a, i, atEnd, turn, j);
    assert CostAt(f, k) == CostOf(Map(Read, rows), turn) by { WholeCost(rows, turn, k); }
    assert forall n :: 0 <= n < |f| && f[n].id == turn ==> n == k by { OneStretch(rows, turn, k); }
    CompletesIff(rows, true, turn, cost);
    MarkedOnce(f, Terminals(f, true), k, turn, cost);
  }

  lemma OneRowReads(row: Row)
    requires row.turn != "" && Renders(row.entry).Some? && !row.entry.Interrupt? && Charges(row.entry).None?
    ensures Project([row], true) == [Told(Read(row).shows.value), TurnCompleted(row.turn, row.at, None)]
  {
    var x := Read(row);
    assert Map(Read, [row]) == [x] && [x][1..] == [];
    var s := Run(INITIAL, [x]);
    assert Boundary(INITIAL, x) == INITIAL;
    assert s == Run(Absorb(INITIAL, x), []) == Absorb(INITIAL, x);
    assert Finish(s, true) == [Told(x.shows.value), Terminal(s, s.last)];
  }

  lemma CostOfTwo(first: Item, second: Item, turn: string)
    requires first.turn == second.turn == turn && second.charge.None?
    ensures CostOf([first, second], turn) == Charged(None, first.charge)
  {
    OwnAll([first, second], turn, turn);
    assert [first, second][1..] == [second] && [second][1..] == [];
    var u := Charged(None, first.charge);
    assert Cost(u, [second]) == Cost(Charged(u, second.charge), []) == u;
  }

  /** The shortest such window, the last of two rows of a turn: its terminal tells no usage, and
      is genuine exactly when the row before neither interrupts the turn nor is charged. */
  lemma WindowBeginsInsideTurn(first: Row, row: Row)
    requires first.turn == row.turn != ""
    requires Renders(row.entry).Some? && !row.entry.Interrupt? && Charges(row.entry).None?
    ensures var rows, turn := [first, row], row.turn;
      Completes(Project(rows[1..2], true), turn, None)
      && (Completes(Project(rows, true), turn, None) <==> !first.entry.Interrupt? && Charges(first.entry).None?)
  {
    var rows, turn := [first, row], row.turn;
    assert rows[1..2] == [row];
    OneRowReads(row);
    assert Project([row], true)[1] == TurnCompleted(turn, row.at, None);
    assert TurnSpans(rows, turn, 0, 2);
    WindowCompletionIsGenuineIff(rows, 1, 2, true, turn, None);
    assert Map(Read, rows) == [Read(first), Read(row)];
    CostOfTwo(Read(first), Read(row), turn);
    if first.entry.Interrupt? { assert rows[0].turn == turn && rows[0].entry.Interrupt?; }
  }
}
