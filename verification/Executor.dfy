/** The benchmark executor: retries, the journaled and resumable task loop, and the
    circuit breaker that takes a dead provider's results back out of the journal. */
module Executor {
  import opened Sequences
  import opened Journal
  import opened TaskResults

  const PROVIDER_DEAD_STREAK_LIMIT := 6
  const BACKOFF_CAP := 60_000_000_000 // 60 s in nanoseconds
  const RUN_STATUS_FAIL_SIGNATURE := "returned run status"

  datatype Slot = Slot(taskId: string, seed: int)

  datatype Suite = Suite(lane: string, tasks: seq<string>)

  /** What one attempt at a slot comes to. */
  datatype Outcome = Outcome(
    status: Status, checks: Option<seq<Check>>, answer: string, toolCalls: int, durationMs: int, error: string)

  function RowOf(lane: string, s: Slot, o: Outcome): Row {
    TaskResult(s.taskId, lane, s.seed, o.status, o.checks, o.answer, o.toolCalls, o.durationMs, o.error)
  }

  /** Everything outside the executor's control in one run: what each attempt at a slot
      returns, when the caller's context is done, and which journal writes fail. A process
      that dies before a write leaves the same journal as a write that fails. */
  datatype World = World(
    attempt: (Slot, nat) -> Outcome,
    stoppedInBackoff: (Slot, nat) -> bool,
    retries: int,
    appendOk: Slot -> bool,
    doneAfter: Slot -> bool,
    truncateOk: bool)

  datatype Ending = Completed | ContextDone | BreakerTripped | AppendFailed | TruncateFailed | JournalUnreadable

  /** One run's outcome: what it returns, what the journal holds, and the rows it
      measured, in order. */
  datatype RunEnd = RunEnd(results: seq<Row>, journal: seq<Row>, measured: seq<Row>, ending: Ending)

  // ---------------------------------------------------------------- retries

  function Pow2(n: nat): (p: nat)
    ensures p >= 1
  {
    if n == 0 then 1 else 2 * Pow2(n - 1)
  }

  lemma {:induction false} Pow2Monotone(a: nat, b: nat)
    requires a <= b
    ensures Pow2(a) <= Pow2(b)
  {
    if a < b { Pow2Monotone(a, b - 1); }
  }

  /** min(base * 2^attempt, cap), and no intermediate value reaches twice the cap. */
  method BackoffDelay(base: int, attempt: nat) returns (d: int)
    ensures d == Min(base * Pow2(attempt), BACKOFF_CAP)
  {
    d := base;
    var i := 0;
    while i < attempt && d < BACKOFF_CAP
      invariant 0 <= i <= attempt
      invariant d == base * Pow2(i)
      invariant d < 2 * BACKOFF_CAP || (i == 0 && d == base)
    {
      assert base * Pow2(i + 1) == 2 * (base * Pow2(i));
      d := d * 2;
      i := i + 1;
    }
    if i < attempt {
      assert d >= BACKOFF_CAP;
      Pow2Monotone(i, attempt);
      MulMonotone(base, Pow2(i), Pow2(attempt));
    }
    if d > BACKOFF_CAP {
      d := BACKOFF_CAP;
    }
  }

  lemma MulMonotone(k: int, a: nat, b: nat)
    requires a <= b && k * a > 0
    ensures k * a <= k * b
  {
    assert k > 0;
  }

  /** Attempt k is the one kept: the first that is not infra, or the last the budget or
      the context allows. */
  predicate LastAttempt(w: World, s: Slot, k: nat) {
    w.attempt(s, k).status != InfraError || k >= w.retries || w.stoppedInBackoff(s, k)
  }

  function FinalAttempt(w: World, s: Slot, k: nat): (r: nat)
    ensures r >= k && LastAttempt(w, s, r)
    ensures forall j :: k <= j < r ==> !LastAttempt(w, s, j)
    decreases w.retries - k
  {
    if LastAttempt(w, s, k) then k else FinalAttempt(w, s, k + 1)
  }

  function Measure(w: World, lane: string, s: Slot): Row {
    var o := w.attempt(s, FinalAttempt(w, s, 0));
    RowOf(lane, s, o)
  }

  method ExecuteWithRetries(w: World, base: int, lane: string, s: Slot) returns (r: Row)
    ensures r == Measure(w, lane, s)
  {
    var attempt: nat := 0;
    while true
      invariant FinalAttempt(w, s, 0) == FinalAttempt(w, s, attempt)
      decreases w.retries - attempt
    {
      var o := w.attempt(s, attempt);
      r := RowOf(lane, s, o);
      if o.status != InfraError || attempt >= w.retries {
        return;
      }
      var delay := BackoffDelay(base, attempt);
      if w.stoppedInBackoff(s, attempt) {
        return;
      }
      attempt := attempt + 1;
    }
  }

  // ---------------------------------------------------------------- one run, as a function

  /** A suite task and seed, with the lane its row carries. */
  datatype Work = Work(lane: string, slot: Slot)

  function SeedsFrom(lane: string, task: string, seed: int, seeds: int): seq<Work>
    decreases seeds - seed
  {
    if seed >= seeds then [] else [Work(lane, Slot(task, seed))] + SeedsFrom(lane, task, seed + 1, seeds)
  }

  function TaskWork(lane: string, tasks: seq<string>, seeds: int): seq<Work> {
    if tasks == [] then [] else SeedsFrom(lane, tasks[0], 0, seeds) + TaskWork(lane, tasks[1..], seeds)
  }

  /** Every (task, seed) slot of the suites, in load order. */
  function Plan(suites: seq<Suite>, seeds: int): seq<Work> {
    if suites == [] then []
    else TaskWork(suites[0].lane, suites[0].tasks, seeds) + Plan(suites[1..], seeds)
  }

  function KeyOf(s: Slot): string {
    SlotKey(s.taskId, s.seed)
  }

  predicate IsSubstring(sub: string, s: string) {
    exists i :: 0 <= i <= |s| - |sub| && Text.OccursAt(s, sub, i)
  }

  /** The row counts towards the dead streak: infra, with the run-failure signature. */
  predicate Dead(r: Row) {
    r.status == InfraError && IsSubstring(RUN_STATUS_FAIL_SIGNATURE, r.error)
  }

  /** The loop's variables: the rows collected, the journal, the rows measured by this run
      and the length of the dead streak. */
  datatype State = State(results: seq<Row>, journal: seq<Row>, measured: seq<Row>, streak: nat)

  /** What a journaled result does to the dead streak, and the breaker with it. */
  function Judged(w: World, row: Row, st: State): (State, Option<Ending>) {
    if !Dead(row) then (st.(streak := 0), None)
    else
      var streak := st.streak + 1;
      if streak < PROVIDER_DEAD_STREAK_LIMIT then (st.(streak := streak), None)
      else if !w.truncateOk then (st.(streak := streak), Some(TruncateFailed))
      else
        (State(DropLast(st.results, streak), DropLast(st.journal, streak), st.measured, streak), Some(BreakerTripped))
  }

  /** One slot that is not done yet: measured, collected, journaled, then the two ways the
      run may stop. */
  function Step(w: World, x: Work, st: State): (State, Option<Ending>) {
    var row := Measure(w, x.lane, x.slot);
    var results, measured := st.results + [row], st.measured + [row];
    if !w.appendOk(x.slot) then (State(results, st.journal, measured, st.streak), Some(AppendFailed))
    else
      var next := State(results, st.journal + [row], measured, st.streak);
      if w.doneAfter(x.slot) then (next, Some(ContextDone)) else Judged(w, row, next)
  }

  /** The task loop over the work still ahead. */
  function Drive(work: seq<Work>, done: set<string>, w: World, st: State): RunEnd {
    if work == [] then RunEnd(st.results, st.journal, st.measured, Completed)
    else if KeyOf(work[0].slot) in done then Drive(work[1..], done, w, st)
    else
      var (st', stop) := Step(w, work[0], st);
      match stop
      case Some(ending) => RunEnd(st'.results, st'.journal, st'.measured, ending)
      case None => Drive(work[1..], done, w, st')
  }

  predicate Final(r: Row) {
    r.status != InfraError
  }

  function Live(rows: seq<Row>): seq<Row> {
    Filter(Final, rows)
  }

  datatype Run = Run(resume: bool, world: World)

  /** One whole run from the journal a previous one left. */
  function RunFrom(work: seq<Work>, journal: seq<Row>, run: Run): RunEnd {
    var start := if run.resume then journal else [];
    Drive(work, Keys(Live(start)), run.world, State(Live(start), start, [], 0))
  }

  /** The journal after a list of runs. */
  function JournalAfter(work: seq<Work>, journal: seq<Row>, runs: seq<Run>): seq<Row>
    decreases |runs|
  {
    if runs == [] then journal
    else JournalAfter(work, RunFrom(work, journal, runs[0]).journal, runs[1..])
  }

  // ---------------------------------------------------------------- what one run does

  function WorkKey(x: Work): string {
    KeyOf(x.slot)
  }

  function PlanKeys(work: seq<Work>): seq<string> {
    Map(WorkKey, work)
  }

  function RowKeys(rows: seq<Row>): seq<string> {
    Map(ResultKey, rows)
  }

  function NotDone(done: set<string>): Work -> bool {
    (x: Work) => KeyOf(x.slot) !in done
  }

  /** The work a run with this done-set measures, if nothing stops it. */
  function Pending(work: seq<Work>, done: set<string>): seq<Work> {
    Filter(NotDone(done), work)
  }

  function MeasureAll(w: World, work: seq<Work>): seq<Row> {
    Map((x: Work) => Measure(w, x.lane, x.slot), work)
  }

  /** The last n rows are dead, and the row before them, if any, is not. */
  ghost predicate DeadTail(rows: seq<Row>, n: nat) {
    n <= |rows|
    && (forall i :: |rows| - n <= i < |rows| ==> Dead(rows[i]))
    && (n < |rows| ==> !Dead(rows[|rows| - n - 1]))
  }

  lemma DeadTailGrows(rows: seq<Row>, r: Row, n: nat)
    requires DeadTail(rows, n)
    ensures Dead(r) ==> DeadTail(rows + [r], n + 1)
    ensures !Dead(r) ==> DeadTail(rows + [r], 0)
  {
  }

  /** What a run returns and what it leaves in the journal, given what it measured. */
  ghost predicate Accounted(e: RunEnd, prior: seq<Row>, start: seq<Row>) {
    var n := |e.measured|;
    match e.ending
    case JournalUnreadable => false
    case Completed => e.results == prior + e.measured && e.journal == start + e.measured
    case ContextDone => e.results == prior + e.measured && e.journal == start + e.measured
    case TruncateFailed => e.results == prior + e.measured && e.journal == start + e.measured
    case AppendFailed =>
      n > 0 && e.results == prior + e.measured && e.journal == start + e.measured[..n - 1]
    case BreakerTripped =>
      DeadTail(e.measured, PROVIDER_DEAD_STREAK_LIMIT)
      && e.results == prior + e.measured[..n - PROVIDER_DEAD_STREAK_LIMIT]
      && e.journal == start + e.measured[..n - PROVIDER_DEAD_STREAK_LIMIT]
  }

  /** The loop invariant behind `Accounted`. */
  ghost predicate Running(st: State, prior: seq<Row>, start: seq<Row>) {
    st.results == prior + st.measured && st.journal == start + st.measured
    && st.streak < PROVIDER_DEAD_STREAK_LIMIT && DeadTail(st.measured, st.streak)
  }

  lemma StepAccounts(w: World, x: Work, st: State, prior: seq<Row>, start: seq<Row>)
    requires Running(st, prior, start)
    ensures var (st', stop) := Step(w, x, st);
            match stop
            case None => Running(st', prior, start)
            case Some(ending) => Accounted(RunEnd(st'.results, st'.journal, st'.measured, ending), prior, start)
  {
    var row := Measure(w, x.lane, x.slot);
    var more := st.measured + [row];
    DeadTailGrows(st.measured, row, st.streak);
    assert st.results + [row] == prior + more;
    assert st.journal + [row] == start + more;
    assert more[..|more| - 1] == st.measured;
    var streak := st.streak + 1;
    if Dead(row) && streak == PROVIDER_DEAD_STREAK_LIMIT {
      assert DropLast(prior + more, streak) == prior + more[..|more| - streak];
      assert DropLast(start + more, streak) == start + more[..|more| - streak];
    }
  }

  lemma {:induction false} DriveAccounts(work: seq<Work>, done: set<string>, w: World, st: State,
                                         prior: seq<Row>, start: seq<Row>)
    requires Running(st, prior, start)
    ensures Accounted(Drive(work, done, w, st), prior, start)
  {
    if work == [] {
    } else if KeyOf(work[0].slot) in done {
      DriveAccounts(work[1..], done, w, st, prior, start);
    } else {
      StepAccounts(w, work[0], st, prior, start);
      var (st', stop) := Step(w, work[0], st);
      if stop == None {
        DriveAccounts(work[1..], done, w, st', prior, start);
      }
    }
  }

  lemma MeasureNext(w: World, work: seq<Work>, rows: seq<Row>)
    requires work != []
    ensures rows + MeasureAll(w, work)
         == rows + [Measure(w, work[0].lane, work[0].slot)] + MeasureAll(w, work[1..])
  {
  }

  lemma PendingStep(work: seq<Work>, done: set<string>)
    requires work != []
    ensures var rest := Pending(work[1..], done);
      if KeyOf(work[0].slot) in done then Pending(work, done) == rest
      else Pending(work, done) == [work[0]] + rest && Pending(work, done)[1..] == rest
  {
  }

  /** A run measures a prefix of its pending work, in order; all of it when it completes. */
  lemma {:induction false} DriveMeasures(work: seq<Work>, done: set<string>, w: World, st: State)
    ensures var e := Drive(work, done, w, st);
            var all := st.measured + MeasureAll(w, Pending(work, done));
            e.measured <= all && (e.ending == Completed ==> e.measured == all)
  {
    if work == [] {
      assert MeasureAll(w, []) == [];
    } else if KeyOf(work[0].slot) in done {
      PendingStep(work, done);
      DriveMeasures(work[1..], done, w, st);
    } else {
      PendingStep(work, done);
      var (st', stop) := Step(w, work[0], st);
      var pending := Pending(work, done);
      MeasureNext(w, pending, st.measured);
      assert st'.measured == st.measured + [Measure(w, work[0].lane, work[0].slot)];
      if stop == None {
        DriveMeasures(work[1..], done, w, st');
      }
    }
  }

  lemma DriveFromStart(work: seq<Work>, done: set<string>, w: World, prior: seq<Row>, start: seq<Row>)
    ensures var e := Drive(work, done, w, State(prior, start, [], 0));
            var all := MeasureAll(w, Pending(work, done));
            Accounted(e, prior, start) && e.measured <= all && (e.ending == Completed ==> e.measured == all)
  {
    var st := State(prior, start, [], 0);
    assert Running(st, prior, start);
    DriveAccounts(work, done, w, st, prior, start);
    DriveMeasures(work, done, w, st);
    assert [] + MeasureAll(w, Pending(work, done)) == MeasureAll(w, Pending(work, done));
  }

  /** One run, from any journal: what it measures and how it accounts for it. */
  lemma RunAccounts(work: seq<Work>, journal: seq<Row>, run: Run)
    ensures var start := if run.resume then journal else [];
            var e := RunFrom(work, journal, run);
            var all := MeasureAll(run.world, Pending(work, Keys(Live(start))));
            Accounted(e, Live(start), start)
            && e.measured <= all && (e.ending == Completed ==> e.measured == all)
  {
    var start := if run.resume then journal else [];
    DriveFromStart(work, Keys(Live(start)), run.world, Live(start), start);
  }

  // ---------------------------------------------------------------- how a run ends

  predicate SignatureAt(error: string, k: nat) {
    k + |"returned run status"| <= |error| && error[k..k + |"returned run status"|] == "returned run status"
  }

  /** An infra row whose error tells of a run that failed on the server. */
  ghost predicate DeadRow(r: Row) {
    r.status == InfraError && exists k: nat :: SignatureAt(r.error, k)
  }

  /** The six rows up to the i-th are dead. */
  ghost predicate SixDead(rows: seq<Row>, i: nat)
    requires i < |rows|
  {
    i >= 5 && forall j :: i - 5 <= j <= i ==> DeadRow(rows[j])
  }

  /** The run stops at the i-th pending slot: its row cannot be journaled, the context is done
      behind it, or it is the sixth dead row in a row. */
  ghost predicate StopsAt(w: World, pending: seq<Work>, i: nat)
    requires i < |pending|
  {
    !w.appendOk(pending[i].slot) || w.doneAfter(pending[i].slot) || SixDead(MeasureAll(w, pending), i)
  }

  ghost predicate StopsFirstAt(w: World, pending: seq<Work>, i: nat)
    requires i < |pending|
  {
    StopsAt(w, pending, i) && forall j :: 0 <= j < i ==> !StopsAt(w, pending, j)
  }

  /** How the run ends at such a slot. */
  ghost predicate EndsWith(w: World, slot: Slot, ending: Ending) {
    if !w.appendOk(slot) then ending == AppendFailed
    else if w.doneAfter(slot) then ending == ContextDone
    else ending == if w.truncateOk then BreakerTripped else TruncateFailed
  }

  /** Measuring ends at the first slot where the run stops, or with the last one. */
  ghost predicate EndsAtFirstStop(w: World, pending: seq<Work>, measured: seq<Row>, ending: Ending) {
    (ending == Completed && measured == MeasureAll(w, pending)
     && forall i :: 0 <= i < |pending| ==> !StopsAt(w, pending, i))
    || (exists i :: 0 <= i < |pending| && StopsFirstAt(w, pending, i)
                    && measured == MeasureAll(w, pending)[..i + 1] && EndsWith(w, pending[i].slot, ending))
  }

  lemma DeadIff(r: Row)
    ensures Dead(r) <==> DeadRow(r)
  {
    if Dead(r) {
      var k :|
        0 <= k <= |r.error| - |RUN_STATUS_FAIL_SIGNATURE| && Text.OccursAt(r.error, RUN_STATUS_FAIL_SIGNATURE, k);
      assert SignatureAt(r.error, k);
    }
    if r.status == InfraError {
      if k: nat :| SignatureAt(r.error, k) { assert Text.OccursAt(r.error, RUN_STATUS_FAIL_SIGNATURE, k); }
    }
  }

  lemma SixDeadIff(rows: seq<Row>, i: nat, n: nat)
    requires i < |rows| && DeadTail(rows[..i], n) && n < PROVIDER_DEAD_STREAK_LIMIT
    ensures SixDead(rows, i) <==> DeadRow(rows[i]) && n == 5
  {
    forall j | 0 <= j <= i ensures Dead(rows[j]) <==> DeadRow(rows[j]) { DeadIff(rows[j]); }
    assert forall j :: i - n <= j < i ==> Dead(rows[..i][j]);
    if n < 5 && n < i { assert !Dead(rows[..i][i - n - 1]); }
  }

  /** The loop has measured the first rows, and stopped at none of them. */
  ghost predicate Underway(st: State, w: World, pending: seq<Work>, rest: seq<Work>) {
    var k := |st.measured|;
    st.streak < PROVIDER_DEAD_STREAK_LIMIT && DeadTail(st.measured, st.streak)
    && k <= |pending| && st.measured == MeasureAll(w, pending)[..k] && rest == pending[k..]
    && forall j :: 0 <= j < k ==> !StopsAt(w, pending, j)
  }

  /** One slot, by the rows measured so far: whether the run stops there, and how. */
  lemma StepEnds(w: World, x: Work, st: State)
    requires st.streak < PROVIDER_DEAD_STREAK_LIMIT && DeadTail(st.measured, st.streak)
    ensures var (st', stop) := Step(w, x, st);
      var more := st.measured + [Measure(w, x.lane, x.slot)];
      var stops := !w.appendOk(x.slot) || w.doneAfter(x.slot) || SixDead(more, |st.measured|);
      st'.measured == more
      && match stop
         case None => !stops && st'.streak < PROVIDER_DEAD_STREAK_LIMIT && DeadTail(more, st'.streak)
         case Some(ending) => stops && EndsWith(w, x.slot, ending)
  {
    var row := Measure(w, x.lane, x.slot);
    var more := st.measured + [row];
    assert more[..|st.measured|] == st.measured;
    SixDeadIff(more, |st.measured|, st.streak);
    DeadIff(row);
    DeadTailGrows(st.measured, row, st.streak);
  }

  lemma SixDeadSoFar(rows: seq<Row>, i: nat)
    requires i < |rows|
    ensures SixDead(rows[..i + 1], i) <==> SixDead(rows, i)
  {
    assert forall j :: 0 <= j <= i ==> rows[..i + 1][j] == rows[j];
  }

  lemma NextMeasured(w: World, pending: seq<Work>, k: nat)
    requires k < |pending|
    ensures MeasureAll(w, pending)[..k + 1]
         == MeasureAll(w, pending)[..k] + [Measure(w, pending[k].lane, pending[k].slot)]
  {
  }

  lemma StepUnderway(w: World, x: Work, st: State, pending: seq<Work>, rest: seq<Work>)
    requires Underway(st, w, pending, rest) && rest != [] && rest[0] == x
    ensures var (st', stop) := Step(w, x, st);
      var k := |st.measured|;
      st'.measured == MeasureAll(w, pending)[..k + 1]
      && match stop
         case None => Underway(st', w, pending, rest[1..])
         case Some(ending) => StopsFirstAt(w, pending, k) && EndsWith(w, pending[k].slot, ending)
  {
    var k := |st.measured|;
    assert pending[k] == x && rest[1..] == pending[k + 1..];
    NextMeasured(w, pending, k);
    StepEnds(w, x, st);
    SixDeadSoFar(MeasureAll(w, pending), k);
  }

  lemma {:induction false} DriveEnds(work: seq<Work>, done: set<string>, w: World, st: State, pending: seq<Work>)
    requires Underway(st, w, pending, Pending(work, done))
    ensures var e := Drive(work, done, w, st); EndsAtFirstStop(w, pending, e.measured, e.ending)
  {
    if work == [] {
      assert MeasureAll(w, pending)[..|pending|] == MeasureAll(w, pending);
    } else {
      PendingStep(work, done);
      if KeyOf(work[0].slot) in done {
        DriveEnds(work[1..], done, w, st, pending);
      } else {
        StepUnderway(w, work[0], st, pending, Pending(work, done));
        var (st', stop) := Step(w, work[0], st);
        if stop == None {
          DriveEnds(work[1..], done, w, st', pending);
        }
      }
    }
  }

  lemma EndsIff(w: World, pending: seq<Work>, measured: seq<Row>, ending: Ending)
    requires EndsAtFirstStop(w, pending, measured, ending)
    ensures ending == Completed <==> forall i :: 0 <= i < |pending| ==> !StopsAt(w, pending, i)
    ensures ending == Completed ==> measured == MeasureAll(w, pending)
    ensures forall i :: 0 <= i < |pending| && StopsFirstAt(w, pending, i) ==>
      measured == MeasureAll(w, pending)[..i + 1] && EndsWith(w, pending[i].slot, ending)
  {
    if ending != Completed {
      var k :| 0 <= k < |pending| && StopsFirstAt(w, pending, k)
               && measured == MeasureAll(w, pending)[..k + 1] && EndsWith(w, pending[k].slot, ending);
      forall i | 0 <= i < |pending| && StopsFirstAt(w, pending, i) ensures i == k {}
    }
  }

  /** Where and how a run ends, told by what the attempts come to and what the world does: it
      completes exactly when it stops at none of its pending slots, and otherwise ends at the
      first where it does. */
  lemma RunEndsIff(work: seq<Work>, journal: seq<Row>, run: Run)
    ensures var start := if run.resume then journal else [];
            var e, w, pending := RunFrom(work, journal, run), run.world, Pending(work, Keys(Live(start)));
            (e.ending == Completed <==> forall i :: 0 <= i < |pending| ==> !StopsAt(w, pending, i))
            && (e.ending == Completed ==> e.measured == MeasureAll(w, pending))
            && forall i :: 0 <= i < |pending| && StopsFirstAt(w, pending, i) ==>
                 e.measured == MeasureAll(w, pending)[..i + 1] && EndsWith(w, pending[i].slot, e.ending)
  {
    var start := if run.resume then journal else [];
    var e, w, pending := RunFrom(work, journal, run), run.world, Pending(work, Keys(Live(start)));
    assert EndsAtFirstStop(w, pending, e.measured, e.ending) by {
      assert MeasureAll(w, pending)[..0] == [] && pending[0..] == pending;
      DriveEnds(work, Keys(Live(start)), w, State(Live(start), start, [], 0), pending);
    }
    EndsIff(w, pending, e.measured, e.ending);
  }

  /** What is pending: in the plan's order, the slots without a journaled pass or fail row. */
  lemma PendingIff(work: seq<Work>, start: seq<Row>, x: Work)
    ensures x in Pending(work, Keys(Live(start)))
       <==> x in work && forall r :: r in start && r.taskId == x.slot.taskId && r.seed == x.slot.seed ==>
              r.status == InfraError
  {
    var done := Keys(Live(start));
    assert x in Pending(work, done) <==> x in work && KeyOf(x.slot) !in done;
    if KeyOf(x.slot) in done {
      var r :| r in Live(start) && ResultKey(r) == KeyOf(x.slot);
      SlotKeyInjective(r.taskId, r.seed, x.slot.taskId, x.slot.seed);
    }
    if r :| r in start && r.taskId == x.slot.taskId && r.seed == x.slot.seed && r.status != InfraError {
      assert r in Live(start) && ResultKey(r) == KeyOf(x.slot);
    }
  }

  /** Another attempt follows this one. */
  predicate Retried(w: World, s: Slot, j: nat) {
    w.attempt(s, j).status == InfraError && j < w.retries && !w.stoppedInBackoff(s, j)
  }

  /** A measured row tells what the attempt came to that was kept: all before it were infra and
      the budget and the context allowed one more. */
  lemma MeasuredAsAttempted(w: World, x: Work) returns (k: nat)
    ensures var r, o := Measure(w, x.lane, x.slot), w.attempt(x.slot, k);
      r.taskId == x.slot.taskId && r.seed == x.slot.seed && r.lane == x.lane
      && r.status == o.status && r.checks == o.checks && r.answer == o.answer && r.toolCalls == o.toolCalls
      && r.durationMs == o.durationMs && r.error == o.error
    ensures !Retried(w, x.slot, k) && forall j :: 0 <= j < k ==> Retried(w, x.slot, j)
  {
    k := FinalAttempt(w, x.slot, 0);
    forall j | 0 <= j < k ensures Retried(w, x.slot, j) { assert !LastAttempt(w, x.slot, j); }
  }

  // ---------------------------------------------------------------- whole histories

  /** Every run leaves the journal it started from with some of its own rows appended. */
  lemma JournalExtends(work: seq<Work>, journal: seq<Row>, run: Run)
    ensures var start := if run.resume then journal else [];
            var e := RunFrom(work, journal, run);
            exists n :: 0 <= n <= |e.measured| && e.journal == start + e.measured[..n]
  {
    RunAccounts(work, journal, run);
    var start := if run.resume then journal else [];
    var e := RunFrom(work, journal, run);
    var m := |e.measured|;
    var n := if e.ending == AppendFailed then m - 1
             else if e.ending == BreakerTripped then m - PROVIDER_DEAD_STREAK_LIMIT else m;
    assert e.measured[..m] == e.measured;
    assert 0 <= n <= m && e.journal == start + e.measured[..n];
  }

  /** A journaled pass or fail row outlives every run that resumes: the final rows of the
      journal are a prefix of the final rows after any number of resuming runs. */
  lemma {:induction false} FinalRowsStay(work: seq<Work>, journal: seq<Row>, runs: seq<Run>)
    requires forall r :: r in runs ==> r.resume
    ensures Live(journal) <= Live(JournalAfter(work, journal, runs))
    decreases |runs|
  {
    if runs != [] {
      JournalExtends(work, journal, runs[0]);
      var e := RunFrom(work, journal, runs[0]);
      var n :| 0 <= n <= |e.measured| && e.journal == journal + e.measured[..n];
      FilterAppend(Final, journal, e.measured[..n]);
      FinalRowsStay(work, e.journal, runs[1..]);
    }
  }

  /** No slot journaled with a final row is measured again by any later resuming run. */
  lemma FinalSlotsAreNotRemeasured(work: seq<Work>, journal: seq<Row>, runs: seq<Run>, next: Run, old': Row, new': Row)
    requires forall r :: r in runs ==> r.resume
    requires next.resume
    requires old' in journal && old'.status != InfraError
    requires new' in RunFrom(work, JournalAfter(work, journal, runs), next).measured
    ensures new'.taskId != old'.taskId || new'.seed != old'.seed
  {
    var later := JournalAfter(work, journal, runs);
    FinalRowsStay(work, journal, runs);
    assert old' in Live(journal);
    assert old' in Live(later);
    MeasuredIsPending(work, later, next, new');
  }

  /** Whatever a resuming run measures had no final row in its journal. */
  lemma MeasuredIsPending(work: seq<Work>, journal: seq<Row>, run: Run, r: Row)
    requires run.resume && r in RunFrom(work, journal, run).measured
    ensures ResultKey(r) !in Keys(Live(journal))
  {
    RunAccounts(work, journal, run);
    var pending, e := Pending(work, Keys(Live(journal))), RunFrom(work, journal, run);
    var i :| 0 <= i < |e.measured| && e.measured[i] == r;
    assert r == Measure(run.world, pending[i].lane, pending[i].slot) && pending[i] in pending;
  }

  lemma KeysAreRowKeys(rows: seq<Row>, k: string)
    ensures k in Keys(rows) <==> k in RowKeys(rows)
  {
    if k in Keys(rows) {
      var r :| r in rows && ResultKey(r) == k;
      MapMember(ResultKey, rows, r);
    }
    if k in RowKeys(rows) {
      var r := MapOrigin(ResultKey, rows, k);
    }
  }

  /** The row was measured for some slot of the plan, in that slot's lane. */
  ghost predicate OfPlan(work: seq<Work>, r: Row) {
    exists x :: x in work && r.taskId == x.slot.taskId && r.seed == x.slot.seed && r.lane == x.lane
  }

  /** The journal invariant: every row belongs to the plan and no two final rows share a
      slot. Infra rows may repeat, since a resuming run leaves old ones in place. */
  ghost predicate JournalInv(work: seq<Work>, journal: seq<Row>) {
    (forall r :: r in journal ==> OfPlan(work, r)) && Distinct(RowKeys(Live(journal)))
  }

  lemma MeasuredRows(work: seq<Work>, journal: seq<Row>, run: Run)
    requires Distinct(PlanKeys(work))
    ensures var start := if run.resume then journal else [];
            var e := RunFrom(work, journal, run);
            Distinct(RowKeys(e.measured))
            && (forall r :: r in e.measured ==> OfPlan(work, r) && ResultKey(r) !in Keys(Live(start)))
  {
    RunAccounts(work, journal, run);
    var start := if run.resume then journal else [];
    var e := RunFrom(work, journal, run);
    var done := Keys(Live(start));
    var p := Pending(work, done);
    FilterDistinct(WorkKey, NotDone(done), work);
    assert RowKeys(e.measured) == PlanKeys(p)[..|e.measured|];
    forall r | r in e.measured ensures OfPlan(work, r) && ResultKey(r) !in done {
      var i :| 0 <= i < |e.measured| && e.measured[i] == r;
      assert r == Measure(run.world, p[i].lane, p[i].slot) && p[i] in p;
    }
  }

  lemma LiveKeysStayDistinct(start: seq<Row>, own: seq<Row>)
    requires Distinct(RowKeys(Live(start))) && Distinct(RowKeys(own))
    requires forall r :: r in own ==> ResultKey(r) !in Keys(Live(start))
    ensures Distinct(RowKeys(Live(start + own)))
  {
    FilterAppend(Final, start, own);
    FilterDistinct(ResultKey, Final, own);
    DistinctMaps(ResultKey, Live(start), Live(own));
  }

  /** Any one run keeps the invariant, however it ends. */
  lemma RunKeepsInv(work: seq<Work>, journal: seq<Row>, run: Run)
    requires Distinct(PlanKeys(work)) && JournalInv(work, journal)
    ensures JournalInv(work, RunFrom(work, journal, run).journal)
  {
    var start := if run.resume then journal else [];
    var e := RunFrom(work, journal, run);
    JournalExtends(work, journal, run);
    MeasuredRows(work, journal, run);
    var n :| 0 <= n <= |e.measured| && e.journal == start + e.measured[..n];
    var own := e.measured[..n];
    assert RowKeys(own) == RowKeys(e.measured)[..n];
    assert Distinct(RowKeys(Live(start)));
    LiveKeysStayDistinct(start, own);
  }

  lemma {:induction false} HistoryKeepsInv(work: seq<Work>, journal: seq<Row>, runs: seq<Run>)
    requires Distinct(PlanKeys(work)) && JournalInv(work, journal)
    ensures JournalInv(work, JournalAfter(work, journal, runs))
    decreases |runs|
  {
    if runs != [] {
      RunKeepsInv(work, journal, runs[0]);
      HistoryKeepsInv(work, RunFrom(work, journal, runs[0]).journal, runs[1..]);
    }
  }

  /** The rows cover the plan: every planned slot has exactly one row, in its lane, and
      there are no others. */
  ghost predicate OneRowPerSlot(work: seq<Work>, rows: seq<Row>) {
    Distinct(RowKeys(rows))
    && (forall r :: r in rows ==> OfPlan(work, r))
    && (forall x :: x in work ==> KeyOf(x.slot) in RowKeys(rows))
  }

  lemma MeasuredKeys(w: World, work: seq<Work>, x: Work)
    requires x in work
    ensures KeyOf(x.slot) in RowKeys(MeasureAll(w, work))
  {
    var i :| 0 <= i < |work| && work[i] == x;
    assert ResultKey(MeasureAll(w, work)[i]) == KeyOf(x.slot);
    MapMember(ResultKey, MeasureAll(w, work), MeasureAll(w, work)[i]);
  }

  lemma CompletedCovers(work: seq<Work>, journal: seq<Row>, last: Run, x: Work)
    requires last.resume && RunFrom(work, journal, last).ending == Completed
    requires x in work
    ensures KeyOf(x.slot) in RowKeys(RunFrom(work, journal, last).results)
  {
    RunAccounts(work, journal, last);
    var prior, e := Live(journal), RunFrom(work, journal, last);
    MapAppend(ResultKey, prior, e.measured);
    if KeyOf(x.slot) in Keys(prior) {
      KeysAreRowKeys(prior, KeyOf(x.slot));
    } else {
      MeasuredKeys(last.world, Pending(work, Keys(prior)), x);
    }
  }

  /** The main result. After any sequence of runs from an empty journal, each ended by the
      breaker, the context or a failed write, a resuming run that completes returns exactly
      one row for every slot of the plan, and the final rows journaled before it are kept. */
  lemma ResumeCompletes(work: seq<Work>, runs: seq<Run>, last: Run)
    requires Distinct(PlanKeys(work))
    requires last.resume
    requires RunFrom(work, JournalAfter(work, [], runs), last).ending == Completed
    ensures var e := RunFrom(work, JournalAfter(work, [], runs), last);
            OneRowPerSlot(work, e.results) && Live(JournalAfter(work, [], runs)) <= e.results
  {
    assert JournalInv(work, []);
    HistoryKeepsInv(work, [], runs);
    var journal := JournalAfter(work, [], runs);
    var prior := Live(journal);
    var e := RunFrom(work, journal, last);
    assert e.results == prior + e.measured by { RunAccounts(work, journal, last); }
    MeasuredRows(work, journal, last);
    DistinctMaps(ResultKey, prior, e.measured);
    forall x | x in work ensures KeyOf(x.slot) in RowKeys(e.results) {
      CompletedCovers(work, journal, last, x);
    }
  }

  // ---------------------------------------------------------------- plans with unique task ids

  function TaskIds(suites: seq<Suite>): seq<string> {
    if suites == [] then [] else suites[0].tasks + TaskIds(suites[1..])
  }

  function Slots(work: seq<Work>): seq<Slot> {
    Map((x: Work) => x.slot, work)
  }

  lemma {:induction false} SeedSlots(lane: string, task: string, seed: int, seeds: int)
    ensures Distinct(Slots(SeedsFrom(lane, task, seed, seeds)))
    ensures forall s :: s in Slots(SeedsFrom(lane, task, seed, seeds)) ==> s.taskId == task && s.seed >= seed
    decreases seeds - seed
  {
    if seed < seeds {
      SeedSlots(lane, task, seed + 1, seeds);
      var rest := SeedsFrom(lane, task, seed + 1, seeds);
      assert Slots(SeedsFrom(lane, task, seed, seeds)) == [Slot(task, seed)] + Slots(rest);
      DistinctAppend([Slot(task, seed)], Slots(rest));
    }
  }

  lemma {:induction false} TaskSlots(lane: string, tasks: seq<string>, seeds: int)
    requires Distinct(tasks)
    ensures Distinct(Slots(TaskWork(lane, tasks, seeds)))
    ensures forall s :: s in Slots(TaskWork(lane, tasks, seeds)) ==> s.taskId in tasks
  {
    if tasks != [] {
      var first, rest := SeedsFrom(lane, tasks[0], 0, seeds), TaskWork(lane, tasks[1..], seeds);
      SeedSlots(lane, tasks[0], 0, seeds);
      assert tasks == [tasks[0]] + tasks[1..];
      DistinctAppend([tasks[0]], tasks[1..]);
      assert tasks[0] !in tasks[1..] by { assert tasks[0] in [tasks[0]]; }
      TaskSlots(lane, tasks[1..], seeds);
      assert Slots(first + rest) == Slots(first) + Slots(rest);
      DistinctAppend(Slots(first), Slots(rest));
    }
  }

  lemma {:induction false} PlanSlots(suites: seq<Suite>, seeds: int)
    requires Distinct(TaskIds(suites))
    ensures Distinct(Slots(Plan(suites, seeds)))
    ensures forall s :: s in Slots(Plan(suites, seeds)) ==> s.taskId in TaskIds(suites)
  {
    if suites != [] {
      var first, rest := TaskWork(suites[0].lane, suites[0].tasks, seeds), Plan(suites[1..], seeds);
      DistinctAppend(suites[0].tasks, TaskIds(suites[1..]));
      TaskSlots(suites[0].lane, suites[0].tasks, seeds);
      PlanSlots(suites[1..], seeds);
      assert Slots(first + rest) == Slots(first) + Slots(rest);
      DistinctAppend(Slots(first), Slots(rest));
    }
  }

  /** Suites whose task ids are unique across the run plan every slot under its own key. */
  lemma PlanKeysDistinct(suites: seq<Suite>, seeds: int)
    requires Distinct(TaskIds(suites))
    ensures Distinct(PlanKeys(Plan(suites, seeds)))
  {
    PlanSlots(suites, seeds);
    var work := Plan(suites, seeds);
    forall i, j | 0 <= i < j < |work| ensures PlanKeys(work)[i] != PlanKeys(work)[j] {
      assert Slots(work)[i] != Slots(work)[j];
      if PlanKeys(work)[i] == PlanKeys(work)[j] {
        SlotKeyInjective(work[i].slot.taskId, work[i].slot.seed, work[j].slot.taskId, work[j].slot.seed);
      }
    }
  }

  /** The breaker takes exactly the trailing dead streak out of the results and out of the
      journal, wherever skipped slots fell between its rows. */
  lemma BreakerTakesTheStreak(work: seq<Work>, journal: seq<Row>, run: Run)
    requires RunFrom(work, journal, run).ending == BreakerTripped
    ensures var start := if run.resume then journal else [];
            var e := RunFrom(work, journal, run);
            var n := |e.measured| - PROVIDER_DEAD_STREAK_LIMIT;
            DeadTail(e.measured, PROVIDER_DEAD_STREAK_LIMIT)
            && e.results == Live(start) + e.measured[..n] && e.journal == start + e.measured[..n]
  {
    RunAccounts(work, journal, run);
  }

  // ---------------------------------------------------------------- the loop itself

  /** What a run that started on this text and measured these rows leaves in the file. */
  function Left(codec: Codec, text: string, measured: seq<Row>, ending: Ending): string {
    match ending
    case AppendFailed => Appended(codec, text, DropLast(measured, 1))
    case BreakerTripped => TruncateText(Appended(codec, text, measured), PROVIDER_DEAD_STREAK_LIMIT)
    case _ => Appended(codec, text, measured)
  }

  lemma LeftAfterBreak(codec: Codec, text: string, measured: seq<Row>)
    requires codec.Lawful() && LoadText(codec, text).Ok? && Appendable(text)
    ensures var left := TruncateText(Appended(codec, text, measured), PROVIDER_DEAD_STREAK_LIMIT);
      Appendable(left)
      && LoadText(codec, left) == Ok(DropLast(LoadText(codec, text).value + measured, PROVIDER_DEAD_STREAK_LIMIT))
  {
    var t := Appended(codec, text, measured);
    LoadAfterAppends(codec, text, measured);
    LoadAfterTruncate(codec, t, PROVIDER_DEAD_STREAK_LIMIT);
    EntriesOfTruncate(t, PROVIDER_DEAD_STREAK_LIMIT);
    LineEndedIsAppendable(TruncateText(t, PROVIDER_DEAD_STREAK_LIMIT));
  }

  lemma AccountedIsLeft(codec: Codec, text: string, prior: seq<Row>, start: seq<Row>, e: RunEnd)
    requires codec.Lawful() && LoadText(codec, text) == Ok(start) && Appendable(text) && Accounted(e, prior, start)
    ensures var left := Left(codec, text, e.measured, e.ending);
      LoadText(codec, left) == Ok(e.journal) && Appendable(left)
  {
    if e.ending == BreakerTripped {
      LeftAfterBreak(codec, text, e.measured);
      var n := |e.measured| - PROVIDER_DEAD_STREAK_LIMIT;
      assert DropLast(start + e.measured, PROVIDER_DEAD_STREAK_LIMIT) == start + e.measured[..n];
    } else {
      LoadAfterAppends(codec, text, if e.ending == AppendFailed then DropLast(e.measured, 1) else e.measured);
    }
  }

  /** A run on a text with nothing but white space unended leaves a file that loads to its
      journal, and is such a text again. */
  lemma RunLeavesJournal(codec: Codec, work: seq<Work>, text: string, run: Run)
    requires codec.Lawful() && LoadText(codec, text).Ok? && Appendable(text) && (!run.resume ==> text == "")
    ensures var e := RunFrom(work, LoadText(codec, text).value, run);
      var left := Left(codec, text, e.measured, e.ending);
      LoadText(codec, left) == Ok(e.journal) && Appendable(left)
  {
    var journal := LoadText(codec, text).value;
    assert !run.resume ==> journal == [] by { EmptyTruncates(codec, 0); }
    RunAccounts(work, journal, run);
    AccountedIsLeft(codec, text, Live(journal), journal, RunFrom(work, journal, run));
  }

  /** The rows a run appended, and those of them its ending leaves. */
  function OwnAppended(e: RunEnd): seq<Row> {
    if e.ending == AppendFailed then DropLast(e.measured, 1) else e.measured
  }

  function TakenBack(e: RunEnd): nat {
    if e.ending == BreakerTripped then PROVIDER_DEAD_STREAK_LIMIT else 0
  }

  function OwnLeft(e: RunEnd): seq<Row> {
    DropLast(OwnAppended(e), TakenBack(e))
  }

  lemma OwnRows(e: RunEnd, prior: seq<Row>, start: seq<Row>)
    requires Accounted(e, prior, start)
    ensures TakenBack(e) <= |OwnAppended(e)| && e.journal == start + OwnLeft(e)
  {
  }

  lemma EntriesLeft(codec: Codec, text: string, e: RunEnd)
    ensures Entries(Left(codec, text, e.measured, e.ending))
         == DropLast(Entries(Appended(codec, text, OwnAppended(e))), TakenBack(e))
  {
    EntriesOfTruncate(Appended(codec, text, OwnAppended(e)), TakenBack(e));
  }

  /** A run on a text that lost its last newline: the file loads as before while nothing is
      appended; otherwise the last row is lost, alone when the breaker takes every row of the run
      back, and else with the run's first row, unless the two parse as one. */
  lemma TornRunLeaves(codec: Codec, work: seq<Work>, text: string, run: Run)
    requires codec.Lawful() && run.resume && LoadText(codec, text).Ok? && !Appendable(text)
    ensures var journal := LoadText(codec, text).value;
      var e := RunFrom(work, journal, run);
      e.journal == journal + OwnLeft(e)
      && LoadText(codec, Left(codec, text, e.measured, e.ending))
         == if OwnAppended(e) == [] then Ok(journal) else TornLoad(codec, text, OwnLeft(e))
  {
    var journal := LoadText(codec, text).value;
    var e := RunFrom(work, journal, run);
    assert TakenBack(e) <= |OwnAppended(e)| && e.journal == journal + OwnLeft(e) by {
      RunAccounts(work, journal, run);
      OwnRows(e, Live(journal), journal);
    }
    EntriesLeft(codec, text, e);
    if OwnAppended(e) != [] {
      TornLoads(codec, text, OwnAppended(e), TakenBack(e), Left(codec, text, e.measured, e.ending));
    }
  }

  /** Runs every suite task and seed against the journal file. The nested loops compute
      exactly `RunFrom` over the plan, and the file has exactly the lines of the rows measured
      added to it, but for those the ending takes back. A resuming run that cannot read the
      journal does nothing. */
  method ExecuteAll(file: ProgressFile, codec: Codec, suites: seq<Suite>, seeds: int, backoff: int, run: Run)
    returns (results: seq<Row>, ending: Ending)
    requires file.Valid()
    modifies file
    ensures file.Valid()
    ensures if run.resume && old(file.Rows(codec)).Err? then
              ending == JournalUnreadable && results == [] && file.text == old(file.text)
            else
              var journal := if old(file.Rows(codec)).Ok? then old(file.Rows(codec)).value else [];
              var end := RunFrom(Plan(suites, seeds), journal, run);
              results == end.results && ending == end.ending
              && file.text == Left(codec, if run.resume then old(file.text) else "", end.measured, end.ending)
  {
    var w := run.world;
    ghost var found := if file.Rows(codec).Ok? then file.Rows(codec).value else [];
    ghost var goal := RunFrom(Plan(suites, seeds), found, run);
    var done: set<string>;
    ghost var journal: seq<Row>;
    var readable: bool;
    readable, results, done, journal := OpenJournal(file, codec, run.resume);
    if !readable {
      return [], JournalUnreadable;
    }
    ghost var start, measured: seq<Row> := file.text, [];
    var deadStreak := 0;
    assert suites[0..] == suites;
    for si := 0 to |suites|
      invariant Journaled(file, codec, start, measured, deadStreak)
      invariant goal == Drive(Plan(suites[si..], seeds), done, w, State(results, journal, measured, deadStreak))
    {
      var s := suites[si];
      assert suites[si..][1..] == suites[si + 1..];
      var stop: Option<Ending>;
      results, deadStreak, stop, journal, measured :=
        ExecuteTasks(file, codec, w, backoff, done, s.lane, s.tasks, seeds,
                     results, deadStreak, journal, measured, Plan(suites[si + 1..], seeds), start);
      if stop.Some? {
        return results, stop.value;
      }
    }
    assert Plan(suites[|suites|..], seeds) == [];
    ending := Completed;
  }

  /** While a run goes on the file is the text it started on with the measured rows appended. */
  ghost predicate Journaled(file: ProgressFile, codec: Codec, start: string, measured: seq<Row>, streak: nat)
    reads file
  {
    file.Valid() && file.text == Appended(codec, start, measured) && streak < PROVIDER_DEAD_STREAK_LIMIT
  }

  /** The same when it goes on, and what its ending leaves when it does not. */
  ghost predicate Leaves(file: ProgressFile, codec: Codec, start: string, measured: seq<Row>, streak: nat,
                         stop: Option<Ending>)
    reads file
  {
    match stop
    case None => Journaled(file, codec, start, measured, streak)
    case Some(ending) => file.Valid() && file.text == Left(codec, start, measured, ending)
  }

  /** What the whole run comes to, once the state is `st` with `after` still ahead, or
      once it has stopped. */
  function Rest(stop: Option<Ending>, after: seq<Work>, done: set<string>, w: World, st: State): RunEnd {
    match stop
    case Some(ending) => RunEnd(st.results, st.journal, st.measured, ending)
    case None => Drive(after, done, w, st)
  }

  lemma NextTask(lane: string, tasks: seq<string>, ti: nat, seeds: int, after: seq<Work>)
    requires ti < |tasks|
    ensures TaskWork(lane, tasks[ti..], seeds) + after
         == SeedsFrom(lane, tasks[ti], 0, seeds) + (TaskWork(lane, tasks[ti + 1..], seeds) + after)
  {
    assert tasks[ti..][1..] == tasks[ti + 1..];
  }

  /** The task loop of one suite; `after` is the work behind it. */
  method ExecuteTasks(file: ProgressFile, codec: Codec, w: World, backoff: int, done: set<string>,
                      lane: string, tasks: seq<string>, seeds: int,
                      results: seq<Row>, streak: nat, ghost journal: seq<Row>, ghost measured: seq<Row>,
                      ghost after: seq<Work>, ghost start: string)
    returns (results': seq<Row>, streak': nat, stop: Option<Ending>,
             ghost journal': seq<Row>, ghost measured': seq<Row>)
    requires Journaled(file, codec, start, measured, streak)
    modifies file
    ensures Drive(TaskWork(lane, tasks, seeds) + after, done, w, State(results, journal, measured, streak))
         == Rest(stop, after, done, w, State(results', journal', measured', streak'))
    ensures Leaves(file, codec, start, measured', streak', stop)
  {
    results', streak', journal', measured', stop := results, streak, journal, measured, None;
    ghost var goal := Drive(TaskWork(lane, tasks, seeds) + after, done, w, State(results, journal, measured, streak));
    assert tasks[0..] == tasks;
    for ti := 0 to |tasks|
      invariant Journaled(file, codec, start, measured', streak')
      invariant stop == None
      invariant goal == Drive(TaskWork(lane, tasks[ti..], seeds) + after, done, w,
                              State(results', journal', measured', streak'))
    {
      ghost var rest := TaskWork(lane, tasks[ti + 1..], seeds) + after;
      NextTask(lane, tasks, ti, seeds, after);
      results', streak', stop, journal', measured' :=
        ExecuteSeeds(file, codec, w, backoff, done, lane, tasks[ti], seeds,
                     results', streak', journal', measured', rest, start);
      if stop.Some? {
        return;
      }
    }
    assert TaskWork(lane, tasks[|tasks|..], seeds) + after == after;
  }

  /** The seed loop of one task; `after` is the work behind it. */
  method ExecuteSeeds(file: ProgressFile, codec: Codec, w: World, backoff: int, done: set<string>,
                      lane: string, task: string, seeds: int,
                      results: seq<Row>, streak: nat, ghost journal: seq<Row>, ghost measured: seq<Row>,
                      ghost after: seq<Work>, ghost start: string)
    returns (results': seq<Row>, streak': nat, stop: Option<Ending>,
             ghost journal': seq<Row>, ghost measured': seq<Row>)
    requires Journaled(file, codec, start, measured, streak)
    modifies file
    ensures Drive(SeedsFrom(lane, task, 0, seeds) + after, done, w, State(results, journal, measured, streak))
         == Rest(stop, after, done, w, State(results', journal', measured', streak'))
    ensures Leaves(file, codec, start, measured', streak', stop)
  {
    results', streak', journal', measured', stop := results, streak, journal, measured, None;
    ghost var goal :=
      Drive(SeedsFrom(lane, task, 0, seeds) + after, done, w, State(results, journal, measured, streak));
    var seed := 0;
    while seed < seeds
      invariant Journaled(file, codec, start, measured', streak')
      invariant stop == None
      invariant goal == Drive(SeedsFrom(lane, task, seed, seeds) + after, done, w,
                              State(results', journal', measured', streak'))
      decreases seeds - seed
    {
      var x := Work(lane, Slot(task, seed));
      ghost var work := SeedsFrom(lane, task, seed, seeds) + after;
      ghost var rest := SeedsFrom(lane, task, seed + 1, seeds) + after;
      Regroup([x], SeedsFrom(lane, task, seed + 1, seeds), after);
      assert work == [x] + rest && work[0] == x && work[1..] == rest;
      seed := seed + 1;
      if SlotKey(task, x.slot.seed) in done {
        continue;
      }
      ghost var st := State(results', journal', measured', streak');
      results', streak', stop, journal', measured' :=
        ExecuteSlot(file, codec, w, backoff, x, results', streak', journal', measured', start);
      assert (State(results', journal', measured', streak'), stop) == Step(w, x, st);
      if stop.Some? {
        return;
      }
    }
    assert SeedsFrom(lane, task, seed, seeds) + after == after;
  }

  /** The loop body for a slot that is not done. */
  method ExecuteSlot(file: ProgressFile, codec: Codec, w: World, backoff: int, x: Work,
                     results: seq<Row>, streak: nat, ghost journal: seq<Row>, ghost measured: seq<Row>,
                     ghost start: string)
    returns (results': seq<Row>, streak': nat, stop: Option<Ending>,
             ghost journal': seq<Row>, ghost measured': seq<Row>)
    requires Journaled(file, codec, start, measured, streak)
    modifies file
    ensures (State(results', journal', measured', streak'), stop)
         == Step(w, x, State(results, journal, measured, streak))
    ensures Leaves(file, codec, start, measured', streak', stop)
  {
    var result := ExecuteWithRetries(w, backoff, x.lane, x.slot);
    results', streak', stop := results + [result], streak, None;
    journal', measured' := journal, measured + [result];
    if !w.appendOk(x.slot) {
      stop := Some(AppendFailed);
      assert DropLast(measured', 1) == measured;
      return;
    }
    file.Append(codec, result);
    journal' := journal + [result];
    AppendedOneMore(codec, start, measured, result);
    if w.doneAfter(x.slot) {
      stop := Some(ContextDone);
      return;
    }
    results', streak', stop, journal' := BreakCircuit(file, codec, w, result, results', streak, journal');
  }

  /** The circuit breaker: what one more result does to the dead streak. */
  method BreakCircuit(file: ProgressFile, codec: Codec, w: World, result: Row,
                      results: seq<Row>, streak: nat, ghost journal: seq<Row>)
    returns (results': seq<Row>, streak': nat, stop: Option<Ending>, ghost journal': seq<Row>)
    requires file.Valid() && file.present && streak < PROVIDER_DEAD_STREAK_LIMIT
    modifies file
    ensures (State(results', journal', [], streak'), stop) == Judged(w, result, State(results, journal, [], streak))
    ensures file.Valid() && (stop.None? ==> streak' < PROVIDER_DEAD_STREAK_LIMIT)
    ensures file.text == if stop == Some(BreakerTripped) then TruncateText(old(file.text), PROVIDER_DEAD_STREAK_LIMIT)
                         else old(file.text)
  {
    results', streak', stop, journal' := results, 0, None, journal;
    if result.status == InfraError && IsSubstring(RUN_STATUS_FAIL_SIGNATURE, result.error) {
      streak' := streak + 1;
      if streak' >= PROVIDER_DEAD_STREAK_LIMIT {
        if !w.truncateOk {
          stop := Some(TruncateFailed);
          return;
        }
        file.Truncate(codec, streak');
        journal' := DropLast(journal, streak');
        results' := DropLast(results, streak');
        stop := Some(BreakerTripped);
      }
    }
  }

  /** What a run starts from: the final rows of the journal when it resumes, an empty
      journal otherwise. */
  method OpenJournal(file: ProgressFile, codec: Codec, resume: bool)
    returns (readable: bool, live: seq<Row>, done: set<string>, ghost journal: seq<Row>)
    requires file.Valid()
    modifies file
    ensures file.Valid() && (readable <==> !resume || old(file.Rows(codec)).Ok?)
    ensures file.text == if resume then old(file.text) else ""
    ensures readable ==>
      journal == (if resume then old(file.Rows(codec)).value else []) && live == Live(journal) && done == Keys(live)
  {
    readable, live, done, journal := true, [], {}, [];
    if resume {
      var loaded, all := file.Load(codec);
      if loaded.Err? {
        return false, [], {}, [];
      }
      journal := loaded.value;
      live, done := DropInfra(loaded.value);
    } else {
      file.Remove();
    }
  }

  lemma KeysOfOneMore(rows: seq<Row>, r: Row)
    ensures Keys(rows + [r]) == Keys(rows) + {ResultKey(r)}
  {
    forall k | k in Keys(rows) + {ResultKey(r)} ensures k in Keys(rows + [r]) {
      if k == ResultKey(r) {
        assert r in rows + [r];
      } else {
        var x :| x in rows && ResultKey(x) == k;
        assert x in rows + [r];
      }
    }
  }

  /** The resume filter: journaled infra rows are never final. */
  method DropInfra(loaded: seq<Row>) returns (live: seq<Row>, done: set<string>)
    ensures live == Live(loaded) && done == Keys(live)
  {
    live, done := [], {};
    assert loaded[0..] == loaded;
    for i := 0 to |loaded|
      invariant Live(loaded) == live + Live(loaded[i..])
      invariant done == Keys(live)
    {
      assert loaded[i..][1..] == loaded[i + 1..];
      if loaded[i].status == InfraError {
        assert Live(loaded[i..]) == Live(loaded[i + 1..]);
        continue;
      }
      Regroup(live, [loaded[i]], Live(loaded[i + 1..]));
      KeysOfOneMore(live, loaded[i]);
      live := live + [loaded[i]];
      done := done + {ResultKey(loaded[i])};
    }
    assert Live(loaded[|loaded|..]) == [];
  }
}
