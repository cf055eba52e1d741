/** The live-run manager as a transition system. Every critical section is one step; a
    caller that looks a run up, then acts on it, is two steps with anything in between, and
    a looked-up run may be stale by then. */
module RunManager {
  import opened Sequences

  type Key = string
  type RunId = nat
  type StreamId = nat
  type Client = nat

  /** How far the goroutine that waits for the end of a run has come. */
  datatype Sweep = Waiting | HubClosed | Collected | Deregistered

  /** Streams under the numbers callers name them by. Each registry numbers from 1 on and
      never twice. */
  datatype Registry = Registry(last: nat, streams: map<nat, StreamId>)

  /** One run: its done channel, its context and whether an explicit cancel has asked it to
      stop, its subscriber registry with the lock on it, and the registry of its task-progress
      hub. */
  datatype Run = Run(
    key: Key, done: bool, cancelled: bool, asked: bool, sweep: Sweep,
    lock: Option<Client>, subs: Registry, progress: Registry)

  /** Every stream a subscribe call returned, with the number it was returned under. `late`
      marks a progress stream whose hub was already swept when it was attached. */
  datatype Stream = Stream(run: RunId, progress: bool, late: bool, number: nat)

  /** Who has taken a stream out of its registry and has yet to close it. */
  datatype Closer = BySweep | ByCaller

  /** A caller between two of its critical sections. */
  datatype Pc = Subscribing(run: RunId) | Following(run: RunId) | Unfollowing(run: RunId, number: nat)

  /** How far a drain call has come with the runs it found live: `i` of them are dealt with,
      and after the deadline the count starts again with the stragglers. */
  datatype Drain = Drain(waits: seq<RunId>, i: nat, expired: bool)

  datatype State = State(
    live: map<Key, RunId>, runs: map<RunId, Run>, draining: bool,
    streams: map<StreamId, Stream>, closing: map<StreamId, Closer>, closed: set<StreamId>,
    pcs: map<Client, Pc>, drains: map<Client, Drain>)

  const INITIAL := State(map[], map[], false, map[], map[], {}, map[], map[])

  datatype LifeStep =
    | Start(key: Key, r: RunId)
    | Finish(r: RunId)
    | Ask(key: Key)
    | Escalate(r: RunId)
    | SweepHub(r: RunId)
    | SweepCollect(r: RunId)
    | Deregister(r: RunId)

  datatype CallStep =
    | SubscribeCheck(c: Client, r: RunId)
    | SubscribeRegister(c: Client, id: StreamId)
    | Unsubscribe(r: RunId, number: nat)
    | CloseSubscribers(r: RunId)
    | CloseOne(id: StreamId)

  datatype HubStep =
    | FollowCheck(c: Client, r: RunId)
    | FollowRegister(c: Client, id: StreamId)
    | UnfollowCheck(c: Client, r: RunId, number: nat)
    | Unfollow(c: Client)

  datatype DrainStep =
    | Begin(c: Client, order: seq<RunId>)
    | Wait(c: Client)
    | Deadline(c: Client)
    | Cancel(c: Client)

  datatype Step = Life(life: LifeStep) | Call(call: CallStep) | Hub(hub: HubStep) | Drains(drain: DrainStep)

  // ---------------------------------------------------------------- a run's own life

  const NO_STREAMS := Registry(0, map[])

  predicate Holds(g: Registry, number: nat, id: StreamId) {
    number in g.streams && g.streams[number] == id
  }

  function Added(g: Registry, id: StreamId): Registry {
    Registry(g.last + 1, g.streams[g.last + 1 := id])
  }

  function Emptied(g: Registry): Registry {
    g.(streams := map[])
  }

  function Without(g: Registry, number: nat): Registry {
    g.(streams := g.streams - {number})
  }

  /** Everything in the registry is taken out, to be closed. */
  function Take(g: Registry, who: Closer): map<StreamId, Closer> {
    map id | id in g.streams.Values :: who
  }

  /** What stands under the number is taken out, to be closed by its caller. */
  function TakeOne(closing: map<StreamId, Closer>, g: Registry, number: nat): map<StreamId, Closer> {
    if number in g.streams then closing[g.streams[number] := ByCaller] else closing
  }

  /** A refused start or cancel changes nothing and is no step. Once a run has been asked to
      stop, its context is cancelled after a while unless it is done. The sweep deregisters only
      after it has closed what it collected. */
  ghost predicate LifeEnabled(s: State, step: LifeStep) {
    match step
    case Start(key, r) => !s.draining && key !in s.live && r !in s.runs
    case Finish(r) => r in s.runs
    case Ask(key) => key in s.live && s.live[key] in s.runs
    case Escalate(r) => r in s.runs && s.runs[r].asked && !s.runs[r].done
    case SweepHub(r) => r in s.runs && s.runs[r].done && s.runs[r].sweep == Waiting
    case SweepCollect(r) => r in s.runs && s.runs[r].sweep == HubClosed && s.runs[r].lock == None
    case Deregister(r) =>
      r in s.runs && s.runs[r].sweep == Collected
      && forall id :: id in s.streams && s.streams[id].run == r && id in s.closing ==> s.closing[id] != BySweep
  }

  ghost function LifeNext(s: State, step: LifeStep): State
    requires LifeEnabled(s, step)
  {
    match step
    case Start(key, r) =>
      s.(runs := s.runs[r := Run(key, false, false, false, Waiting, None, NO_STREAMS, NO_STREAMS)],
         live := s.live[key := r])
    case Finish(r) => s.(runs := s.runs[r := s.runs[r].(done := true)])
    case Ask(key) => s.(runs := s.runs[s.live[key] := s.runs[s.live[key]].(asked := true)])
    case Escalate(r) => s.(runs := s.runs[r := s.runs[r].(cancelled := true)])
    case SweepHub(r) =>
      s.(runs := s.runs[r := s.runs[r].(sweep := HubClosed, progress := Emptied(s.runs[r].progress))],
         closing := s.closing + Take(s.runs[r].progress, BySweep))
    case SweepCollect(r) =>
      s.(runs := s.runs[r := s.runs[r].(sweep := Collected, subs := Emptied(s.runs[r].subs))],
         closing := s.closing + Take(s.runs[r].subs, BySweep))
    case Deregister(r) =>
      var key := s.runs[r].key;
      s.(runs := s.runs[r := s.runs[r].(sweep := Deregistered)],
         live := if key in s.live && s.live[key] == r then s.live - {key} else s.live)
  }

  // ---------------------------------------------------------------- transcript subscribers

  ghost predicate CallEnabled(s: State, step: CallStep) {
    match step
    case SubscribeCheck(c, r) => c !in s.pcs && r in s.runs && s.runs[r].lock == None && !s.runs[r].done
    case SubscribeRegister(c, id) => c in s.pcs && s.pcs[c].Subscribing? && s.pcs[c].run in s.runs && id !in s.streams
    case Unsubscribe(r, number) => r in s.runs && s.runs[r].lock == None
    case CloseSubscribers(r) => r in s.runs && s.runs[r].lock == None
    case CloseOne(id) => id in s.closing
  }

  ghost function CallNext(s: State, step: CallStep): State
    requires CallEnabled(s, step)
  {
    match step
    case SubscribeCheck(c, r) => s.(runs := s.runs[r := s.runs[r].(lock := Some(c))], pcs := s.pcs[c := Subscribing(r)])
    case SubscribeRegister(c, id) =>
      var r := s.pcs[c].run;
      s.(runs := s.runs[r := s.runs[r].(lock := None, subs := Added(s.runs[r].subs, id))],
         streams := s.streams[id := Stream(r, false, false, s.runs[r].subs.last + 1)], pcs := s.pcs - {c})
    case Unsubscribe(r, number) =>
      s.(runs := s.runs[r := s.runs[r].(subs := Without(s.runs[r].subs, number))],
         closing := TakeOne(s.closing, s.runs[r].subs, number))
    case CloseSubscribers(r) =>
      s.(runs := s.runs[r := s.runs[r].(subs := Emptied(s.runs[r].subs))],
         closing := s.closing + Take(s.runs[r].subs, ByCaller))
    case CloseOne(id) => s.(closing := s.closing - {id}, closed := s.closed + {id})
  }

  // ---------------------------------------------------------------- progress subscribers

  /** Following a run's tasks looks at its done channel first and takes the hub's lock
      afterwards; so does unfollowing, under whatever number the caller has. */
  ghost predicate HubEnabled(s: State, step: HubStep) {
    match step
    case FollowCheck(c, r) => c !in s.pcs && r in s.runs && !s.runs[r].done
    case FollowRegister(c, id) => c in s.pcs && s.pcs[c].Following? && s.pcs[c].run in s.runs && id !in s.streams
    case UnfollowCheck(c, r, number) => c !in s.pcs && r in s.runs && !s.runs[r].done
    case Unfollow(c) => c in s.pcs && s.pcs[c].Unfollowing? && s.pcs[c].run in s.runs
  }

  ghost function HubNext(s: State, step: HubStep): State
    requires HubEnabled(s, step)
  {
    match step
    case FollowCheck(c, r) => s.(pcs := s.pcs[c := Following(r)])
    case FollowRegister(c, id) =>
      var r := s.pcs[c].run;
      var run := s.runs[r];
      s.(runs := s.runs[r := run.(progress := Added(run.progress, id))],
         streams := s.streams[id := Stream(r, true, run.sweep != Waiting, run.progress.last + 1)], pcs := s.pcs - {c})
    case UnfollowCheck(c, r, number) => s.(pcs := s.pcs[c := Unfollowing(r, number)])
    case Unfollow(c) =>
      var r, number := s.pcs[c].run, s.pcs[c].number;
      s.(runs := s.runs[r := s.runs[r].(progress := Without(s.runs[r].progress, number))],
         closing := TakeOne(s.closing, s.runs[r].progress, number), pcs := s.pcs - {c})
  }

  // ---------------------------------------------------------------- drain

  /** The order of the runs a drain waits for is the order of a map's iteration: any. */
  ghost predicate DrainEnabled(s: State, step: DrainStep) {
    match step
    case Begin(c, order) =>
      c !in s.drains && (forall k :: k in s.live ==> s.live[k] in order)
      && (forall r :: r in order ==> r in s.live.Values)
    case Wait(c) =>
      c in s.drains && !s.drains[c].expired && s.drains[c].i < |s.drains[c].waits|
      && s.drains[c].waits[s.drains[c].i] in s.runs && s.runs[s.drains[c].waits[s.drains[c].i]].done
    case Deadline(c) => c in s.drains && !s.drains[c].expired && s.drains[c].i < |s.drains[c].waits|
    case Cancel(c) =>
      c in s.drains && s.drains[c].expired && s.drains[c].i < |s.drains[c].waits|
      && s.drains[c].waits[s.drains[c].i] in s.runs
  }

  ghost function DrainNext(s: State, step: DrainStep): State
    requires DrainEnabled(s, step)
  {
    match step
    case Begin(c, order) => s.(draining := true, drains := s.drains[c := Drain(order, 0, false)])
    case Wait(c) => s.(drains := s.drains[c := s.drains[c].(i := s.drains[c].i + 1)])
    case Deadline(c) => s.(drains := s.drains[c := s.drains[c].(i := 0, expired := true)])
    case Cancel(c) =>
      var r := s.drains[c].waits[s.drains[c].i];
      s.(runs := if s.runs[r].done then s.runs else s.runs[r := s.runs[r].(cancelled := true)],
         drains := s.drains[c := s.drains[c].(i := s.drains[c].i + 1)])
  }

  // ---------------------------------------------------------------- whole system

  ghost predicate Enabled(s: State, step: Step) {
    match step
    case Life(life) => LifeEnabled(s, life)
    case Call(call) => CallEnabled(s, call)
    case Hub(hub) => HubEnabled(s, hub)
    case Drains(drain) => DrainEnabled(s, drain)
  }

  ghost function Next(s: State, step: Step): State
    requires Enabled(s, step)
  {
    match step
    case Life(life) => LifeNext(s, life)
    case Call(call) => CallNext(s, call)
    case Hub(hub) => HubNext(s, hub)
    case Drains(drain) => DrainNext(s, drain)
  }

  /** `steps` can be taken one after the other from `s`. */
  ghost predicate Feasible(s: State, steps: seq<Step>)
    decreases |steps|
  {
    steps != [] ==> Enabled(s, steps[0]) && Feasible(Next(s, steps[0]), steps[1..])
  }

  ghost function After(s: State, steps: seq<Step>): State
    requires Feasible(s, steps)
    decreases |steps|
  {
    if steps == [] then s else After(Next(s, steps[0]), steps[1..])
  }

  // ---------------------------------------------------------------- the invariant

  predicate Swept(sweep: Sweep) {
    sweep == Collected || sweep == Deregistered
  }

  ghost predicate RunInv(s: State, r: RunId) {
    r in s.runs ==>
      var run := s.runs[r];
      (!run.done ==> run.key in s.live && s.live[run.key] == r)
      && (run.sweep != Waiting ==> run.done)
      && (Swept(run.sweep) ==> run.lock == None && run.subs.streams == map[])
      && (run.lock.Some? ==> run.lock.value in s.pcs && s.pcs[run.lock.value] == Subscribing(r))
      && Numbered(s, run.subs, r, false) && Numbered(s, run.progress, r, true)
  }

  /** The registry holds streams of its run and kind, each under its own number. */
  ghost predicate Numbered(s: State, g: Registry, r: RunId, progress: bool) {
    forall n :: n in g.streams ==>
      n <= g.last && g.streams[n] in s.streams
      && var st := s.streams[g.streams[n]];
        st.run == r && st.progress == progress && st.number == n
  }

  /** The registry the stream was attached to. */
  function Home(s: State, st: Stream): Registry
    requires st.run in s.runs
  {
    if st.progress then s.runs[st.run].progress else s.runs[st.run].subs
  }

  /** Its registry still holds the stream. */
  predicate Registered(s: State, id: StreamId)
    requires id in s.streams && s.streams[id].run in s.runs
  {
    Holds(Home(s, s.streams[id]), s.streams[id].number, id)
  }

  ghost predicate LiveInv(s: State, key: Key) {
    key in s.live ==> s.live[key] in s.runs && s.runs[s.live[key]].key == key
  }

  /** A stream is registered, or being closed, or closed, and its number is no other stream's
      in its registry. A late progress stream sits in a hub that nobody sweeps again. */
  ghost predicate StreamInv(s: State, id: StreamId) {
    if id in s.streams then
      var st := s.streams[id];
      st.run in s.runs
      && (id in s.closing ==> id !in s.closed)
      && st.number <= Home(s, st).last && (st.number in Home(s, st).streams ==> Registered(s, id))
      && (Registered(s, id) <==> id !in s.closing && id !in s.closed)
      && (if st.late then st.progress && s.runs[st.run].sweep != Waiting
          else st.progress && s.runs[st.run].sweep != Waiting ==> !Registered(s, id))
      && (s.runs[st.run].sweep == Deregistered && id in s.closing ==> s.closing[id] == ByCaller)
    else id !in s.closing && id !in s.closed
  }

  ghost predicate ClientInv(s: State, c: Client) {
    c in s.pcs ==>
      match s.pcs[c]
      case Subscribing(r) => r in s.runs && s.runs[r].lock == Some(c)
      case Following(r) => r in s.runs
      case Unfollowing(r, number) => r in s.runs
  }

  predicate FinishedOrCancelled(s: State, r: RunId) {
    r in s.runs && (s.runs[r].done || s.runs[r].cancelled)
  }

  ghost predicate DrainInv(s: State, c: Client) {
    c in s.drains ==>
      s.draining && s.drains[c].i <= |s.drains[c].waits|
      && (forall j :: 0 <= j < |s.drains[c].waits| ==> s.drains[c].waits[j] in s.runs)
      && (forall j :: 0 <= j < s.drains[c].i ==> FinishedOrCancelled(s, s.drains[c].waits[j]))
  }

  ghost predicate Inv(s: State) {
    (forall r :: RunInv(s, r)) && (forall k :: LiveInv(s, k)) && (forall id :: StreamInv(s, id))
    && (forall c :: ClientInv(s, c)) && (forall c :: DrainInv(s, c))
  }

  lemma LifeRuns(s: State, step: LifeStep, r: RunId)
    requires Inv(s) && LifeEnabled(s, step)
    ensures RunInv(LifeNext(s, step), r)
  {
    assert RunInv(s, r);
    if step.Start? { assert LiveInv(s, step.key); }
    if step.Deregister? { assert RunInv(s, step.r); }
    LifeRun(s, step, r);
  }

  lemma LifeRun(s: State, step: LifeStep, r: RunId)
    requires LifeEnabled(s, step) && RunInv(s, r)
    requires (step.Start? ==> LiveInv(s, step.key)) && (step.Deregister? ==> RunInv(s, step.r))
    ensures RunInv(LifeNext(s, step), r)
  {
  }

  /** A sweep takes streams out of its own run's registries only. */
  lemma SweepStreams(s: State, step: LifeStep, id: StreamId)
    requires LifeEnabled(s, step) && (step.SweepHub? || step.SweepCollect? || step.Deregister?)
    requires StreamInv(s, id) && RunInv(s, step.r) && (id in s.streams ==> RunInv(s, s.streams[id].run))
    ensures StreamInv(LifeNext(s, step), id)
  {
  }

  lemma LifeStreams(s: State, step: LifeStep, id: StreamId)
    requires Inv(s) && LifeEnabled(s, step)
    ensures StreamInv(LifeNext(s, step), id)
  {
    assert StreamInv(s, id);
    if id in s.streams { assert RunInv(s, s.streams[id].run); }
    if step.SweepHub? || step.SweepCollect? || step.Deregister? {
      assert RunInv(s, step.r);
      SweepStreams(s, step, id);
    }
  }

  lemma SubscribeRegisterRuns(s: State, step: CallStep, r: RunId)
    requires step.SubscribeRegister? && CallEnabled(s, step) && RunInv(s, r) && ClientInv(s, step.c)
    ensures RunInv(CallNext(s, step), r)
  {
  }

  lemma OtherCallRuns(s: State, step: CallStep, r: RunId)
    requires !step.SubscribeRegister? && CallEnabled(s, step) && RunInv(s, r)
    requires r in s.runs && s.runs[r].lock.Some? ==> ClientInv(s, s.runs[r].lock.value)
    ensures RunInv(CallNext(s, step), r)
  {
  }

  lemma CallRuns(s: State, step: CallStep, r: RunId)
    requires Inv(s) && CallEnabled(s, step)
    ensures RunInv(CallNext(s, step), r)
  {
    assert RunInv(s, r);
    if step.SubscribeRegister? {
      assert ClientInv(s, step.c);
      SubscribeRegisterRuns(s, step, r);
    } else {
      if r in s.runs && s.runs[r].lock.Some? { assert ClientInv(s, s.runs[r].lock.value); }
      OtherCallRuns(s, step, r);
    }
  }

  /** All that is known of a stream and its own run. */
  ghost predicate Known(s: State, id: StreamId) {
    StreamInv(s, id) && (id in s.streams ==> RunInv(s, s.streams[id].run))
  }

  lemma SubscribeRegisterStreams(s: State, step: CallStep, id: StreamId)
    requires step.SubscribeRegister? && CallEnabled(s, step) && Known(s, id) && Known(s, step.id)
    requires ClientInv(s, step.c) && RunInv(s, s.pcs[step.c].run)
    ensures StreamInv(CallNext(s, step), id)
  {
  }

  lemma UnsubscribeStreams(s: State, step: CallStep, id: StreamId)
    requires step.Unsubscribe? && CallEnabled(s, step) && Known(s, id) && RunInv(s, step.r)
    ensures StreamInv(CallNext(s, step), id)
  {
  }

  lemma CloseSubscribersStreams(s: State, step: CallStep, id: StreamId)
    requires step.CloseSubscribers? && CallEnabled(s, step) && Known(s, id) && RunInv(s, step.r)
    ensures StreamInv(CallNext(s, step), id)
  {
  }

  lemma CallStreams(s: State, step: CallStep, id: StreamId)
    requires Inv(s) && CallEnabled(s, step)
    ensures StreamInv(CallNext(s, step), id)
  {
    assert StreamInv(s, id);
    if id in s.streams { assert RunInv(s, s.streams[id].run); }
    match step
    case SubscribeRegister(c, added) =>
      assert ClientInv(s, c) && RunInv(s, s.pcs[c].run) && StreamInv(s, added);
      SubscribeRegisterStreams(s, step, id);
    case Unsubscribe(r, number) =>
      assert RunInv(s, r);
      UnsubscribeStreams(s, step, id);
    case CloseSubscribers(r) =>
      assert RunInv(s, r);
      CloseSubscribersStreams(s, step, id);
    case _ =>
  }

  lemma HubRuns(s: State, step: HubStep, r: RunId)
    requires Inv(s) && HubEnabled(s, step)
    ensures RunInv(HubNext(s, step), r)
  {
    assert RunInv(s, r);
    if step.FollowRegister? {
      assert ClientInv(s, step.c);
      FollowRegisterRuns(s, step, r);
    } else if step.Unfollow? {
      assert ClientInv(s, step.c);
      UnfollowRuns(s, step, r);
    }
  }

  lemma FollowRegisterRuns(s: State, step: HubStep, r: RunId)
    requires step.FollowRegister? && HubEnabled(s, step) && RunInv(s, r) && ClientInv(s, step.c)
    ensures RunInv(HubNext(s, step), r)
  {
  }

  lemma UnfollowRuns(s: State, step: HubStep, r: RunId)
    requires step.Unfollow? && HubEnabled(s, step) && RunInv(s, r) && ClientInv(s, step.c)
    ensures RunInv(HubNext(s, step), r)
  {
  }

  lemma FollowRegisterStreams(s: State, step: HubStep, id: StreamId)
    requires step.FollowRegister? && HubEnabled(s, step) && Known(s, id) && Known(s, step.id)
    requires ClientInv(s, step.c) && RunInv(s, s.pcs[step.c].run)
    ensures StreamInv(HubNext(s, step), id)
  {
  }

  lemma UnfollowStreams(s: State, step: HubStep, id: StreamId)
    requires step.Unfollow? && HubEnabled(s, step) && Known(s, id) && RunInv(s, s.pcs[step.c].run)
    ensures StreamInv(HubNext(s, step), id)
  {
  }

  lemma HubStreams(s: State, step: HubStep, id: StreamId)
    requires Inv(s) && HubEnabled(s, step)
    ensures StreamInv(HubNext(s, step), id)
  {
    assert StreamInv(s, id);
    if id in s.streams { assert RunInv(s, s.streams[id].run); }
    match step
    case FollowRegister(c, added) =>
      assert ClientInv(s, c) && RunInv(s, s.pcs[c].run) && StreamInv(s, added);
      FollowRegisterStreams(s, step, id);
    case Unfollow(c) =>
      assert RunInv(s, s.pcs[c].run);
      UnfollowStreams(s, step, id);
    case _ =>
  }

  lemma DrainRuns(s: State, step: DrainStep, r: RunId)
    requires Inv(s) && DrainEnabled(s, step)
    ensures RunInv(DrainNext(s, step), r)
  {
    assert RunInv(s, r);
  }

  lemma DrainStreams(s: State, step: DrainStep, id: StreamId)
    requires Inv(s) && DrainEnabled(s, step)
    ensures StreamInv(DrainNext(s, step), id)
  {
    assert StreamInv(s, id);
  }

  lemma RunStep(s: State, step: Step, r: RunId)
    requires Inv(s) && Enabled(s, step)
    ensures RunInv(Next(s, step), r)
  {
    match step
    case Life(life) => LifeRuns(s, life, r);
    case Call(call) => CallRuns(s, call, r);
    case Hub(hub) => HubRuns(s, hub, r);
    case Drains(drain) => DrainRuns(s, drain, r);
  }

  lemma StreamStep(s: State, step: Step, id: StreamId)
    requires Inv(s) && Enabled(s, step)
    ensures StreamInv(Next(s, step), id)
  {
    match step
    case Life(life) => LifeStreams(s, life, id);
    case Call(call) => CallStreams(s, call, id);
    case Hub(hub) => HubStreams(s, hub, id);
    case Drains(drain) => DrainStreams(s, drain, id);
  }

  lemma LifeLive(s: State, step: LifeStep, key: Key)
    requires Inv(s) && LifeEnabled(s, step)
    ensures LiveInv(LifeNext(s, step), key)
  {
    assert LiveInv(s, key);
  }

  lemma CallLive(s: State, step: CallStep, key: Key)
    requires Inv(s) && CallEnabled(s, step)
    ensures LiveInv(CallNext(s, step), key)
  {
    assert LiveInv(s, key);
  }

  lemma HubLive(s: State, step: HubStep, key: Key)
    requires Inv(s) && HubEnabled(s, step)
    ensures LiveInv(HubNext(s, step), key)
  {
    assert LiveInv(s, key);
  }

  lemma LiveStep(s: State, step: Step, key: Key)
    requires Inv(s) && Enabled(s, step)
    ensures LiveInv(Next(s, step), key)
  {
    match step
    case Life(life) => LifeLive(s, life, key);
    case Call(call) => CallLive(s, call, key);
    case Hub(hub) => HubLive(s, hub, key);
    case Drains(drain) => assert LiveInv(s, key);
  }

  lemma LifeClients(s: State, step: LifeStep, c: Client)
    requires Inv(s) && LifeEnabled(s, step)
    ensures ClientInv(LifeNext(s, step), c)
  {
    assert ClientInv(s, c);
  }

  lemma CallClients(s: State, step: CallStep, c: Client)
    requires Inv(s) && CallEnabled(s, step)
    ensures ClientInv(CallNext(s, step), c)
  {
    assert ClientInv(s, c);
    if step.SubscribeRegister? { assert ClientInv(s, step.c); }
  }

  lemma HubClients(s: State, step: HubStep, c: Client)
    requires Inv(s) && HubEnabled(s, step)
    ensures ClientInv(HubNext(s, step), c)
  {
    assert ClientInv(s, c);
  }

  lemma DrainClients(s: State, step: DrainStep, c: Client)
    requires ClientInv(s, c) && DrainEnabled(s, step)
    ensures ClientInv(DrainNext(s, step), c)
  {
  }

  lemma ClientStep(s: State, step: Step, c: Client)
    requires Inv(s) && Enabled(s, step)
    ensures ClientInv(Next(s, step), c)
  {
    match step
    case Life(life) => LifeClients(s, life, c);
    case Call(call) => CallClients(s, call, c);
    case Hub(hub) => HubClients(s, hub, c);
    case Drains(drain) =>
      assert ClientInv(s, c);
      DrainClients(s, drain, c);
  }

  /** What no step takes back: a run keeps its place and stays finished or cancelled, a
      draining manager stays so and gets no new run, and neither a stream's origin nor the
      runs a drain waits for ever change. */
  ghost predicate Carries(s: State, t: State, r: RunId, id: StreamId, c: Client) {
    (r in s.runs ==> r in t.runs && (FinishedOrCancelled(s, r) ==> FinishedOrCancelled(t, r)))
    && (s.draining ==> t.draining && (r in t.runs ==> r in s.runs))
    && (id in s.streams ==> id in t.streams && t.streams[id] == s.streams[id])
    && (c in s.drains ==> c in t.drains && t.drains[c].waits == s.drains[c].waits)
  }

  lemma LifeCarries(s: State, step: LifeStep, r: RunId, id: StreamId, c: Client)
    requires LifeEnabled(s, step)
    ensures Carries(s, LifeNext(s, step), r, id, c) && LifeNext(s, step).drains == s.drains
  {
  }

  lemma CallCarries(s: State, step: CallStep, r: RunId, id: StreamId, c: Client)
    requires CallEnabled(s, step)
    ensures Carries(s, CallNext(s, step), r, id, c) && CallNext(s, step).drains == s.drains
  {
  }

  lemma HubCarries(s: State, step: HubStep, r: RunId, id: StreamId, c: Client)
    requires HubEnabled(s, step)
    ensures Carries(s, HubNext(s, step), r, id, c) && HubNext(s, step).drains == s.drains
  {
  }

  lemma DrainCarries(s: State, step: DrainStep, r: RunId, id: StreamId, c: Client)
    requires DrainEnabled(s, step)
    ensures Carries(s, DrainNext(s, step), r, id, c)
  {
  }

  lemma StepCarries(s: State, step: Step, r: RunId, id: StreamId, c: Client)
    requires Enabled(s, step)
    ensures Carries(s, Next(s, step), r, id, c) && (!step.Drains? ==> Next(s, step).drains == s.drains)
  {
    match step
    case Life(life) => LifeCarries(s, life, r, id, c);
    case Call(call) => CallCarries(s, call, r, id, c);
    case Hub(hub) => HubCarries(s, hub, r, id, c);
    case Drains(drain) => DrainCarries(s, drain, r, id, c);
  }

  lemma DrainBegins(s: State, step: DrainStep, c: Client)
    requires Inv(s) && DrainEnabled(s, step) && (c in s.drains ==> DrainInv(s, c))
    requires step.Begin? && step.c == c
    ensures DrainInv(DrainNext(s, step), c)
  {
    forall j | 0 <= j < |step.order| ensures step.order[j] in s.runs {
      assert step.order[j] in s.live.Values;
      var k :| k in s.live && s.live[k] == step.order[j];
      assert LiveInv(s, k);
    }
  }

  lemma DrainGoesOn(s: State, step: Step, c: Client)
    requires Inv(s) && Enabled(s, step) && c in s.drains
    ensures DrainInv(Next(s, step), c)
  {
    assert DrainInv(s, c);
    var t, waits := Next(s, step), s.drains[c].waits;
    StepCarries(s, step, 0, 0, c);
    forall j | 0 <= j < |waits|
      ensures waits[j] in t.runs && (FinishedOrCancelled(s, waits[j]) ==> FinishedOrCancelled(t, waits[j]))
    {
      StepCarries(s, step, waits[j], 0, c);
    }
  }

  lemma DrainStepKeeps(s: State, step: Step, c: Client)
    requires Inv(s) && Enabled(s, step)
    ensures DrainInv(Next(s, step), c)
  {
    if c in s.drains {
      DrainGoesOn(s, step, c);
    } else if step.Drains? && step.drain.Begin? && step.drain.c == c {
      DrainBegins(s, step.drain, c);
    } else {
      NoDrainBegins(s, step, c);
    }
  }

  lemma NoDrainBegins(s: State, step: Step, c: Client)
    requires Enabled(s, step) && c !in s.drains && !(step.Drains? && step.drain.Begin? && step.drain.c == c)
    ensures c !in Next(s, step).drains
  {
    StepCarries(s, step, 0, 0, c);
  }

  lemma StepKeepsInv(s: State, step: Step)
    requires Inv(s) && Enabled(s, step)
    ensures Inv(Next(s, step))
  {
    var s' := Next(s, step);
    forall r ensures RunInv(s', r) { RunStep(s, step, r); }
    forall k ensures LiveInv(s', k) { LiveStep(s, step, k); }
    forall id ensures StreamInv(s', id) { StreamStep(s, step, id); }
    forall c ensures ClientInv(s', c) { ClientStep(s, step, c); }
    forall c ensures DrainInv(s', c) { DrainStepKeeps(s, step, c); }
  }

  lemma {:induction false} RunKeepsInv(s: State, steps: seq<Step>)
    requires Inv(s) && Feasible(s, steps)
    ensures Inv(After(s, steps))
    decreases |steps|
  {
    if steps != [] {
      StepKeepsInv(s, steps[0]);
      RunKeepsInv(Next(s, steps[0]), steps[1..]);
    }
  }

  // ---------------------------------------------------------------- over every run of the system

  /** `t` can come after `s`. */
  ghost predicate LeadsTo(s: State, t: State) {
    exists steps :: Feasible(s, steps) && After(s, steps) == t
  }

  ghost predicate Reachable(s: State) {
    LeadsTo(INITIAL, s)
  }

  lemma ReachableInv(s: State)
    requires Reachable(s)
    ensures Inv(s)
  {
    var steps :| Feasible(INITIAL, steps) && After(INITIAL, steps) == s;
    RunKeepsInv(INITIAL, steps);
  }

  lemma OneUnfinishedRunPerKey(s: State, r: RunId, q: RunId)
    requires Reachable(s) && r in s.runs && q in s.runs
    requires !s.runs[r].done && !s.runs[q].done && s.runs[r].key == s.runs[q].key
    ensures s.runs[r].key in s.live && s.live[s.runs[r].key] == r && r == q
  {
    ReachableInv(s);
    assert RunInv(s, r) && RunInv(s, q);
  }

  lemma SweptRunHoldsNoStream(s: State, id: StreamId)
    requires Reachable(s) && id in s.streams && !s.streams[id].progress
    ensures s.streams[id].run in s.runs
    ensures var run := s.runs[s.streams[id].run];
      (Swept(run.sweep) ==> run.subs.streams == map[] && run.lock == None && (id in s.closed || id in s.closing))
      && (run.sweep == Deregistered ==> id in s.closed || (id in s.closing && s.closing[id] == ByCaller))
  {
    ReachableInv(s);
    assert StreamInv(s, id) && RunInv(s, s.streams[id].run);
  }

  lemma {:induction false} AfterAppend(s: State, xs: seq<Step>, ys: seq<Step>)
    requires Feasible(s, xs) && Feasible(After(s, xs), ys)
    ensures Feasible(s, xs + ys) && After(s, xs + ys) == After(After(s, xs), ys)
    decreases |xs|
  {
    if xs == [] {
      assert xs + ys == ys;
    } else {
      assert (xs + ys)[1..] == xs[1..] + ys;
      AfterAppend(Next(s, xs[0]), xs[1..], ys);
    }
  }

  lemma CloseOneLess(s: State, id: StreamId)
    requires id in s.closing
    ensures var t := Next(s, Call(CloseOne(id)));
      |t.closing| < |s.closing| && t.closed + t.closing.Keys == s.closed + s.closing.Keys
      && t == s.(closing := t.closing, closed := t.closed)
  {
    var t := Next(s, Call(CloseOne(id)));
    assert t.closing.Keys == s.closing.Keys - {id};
    assert |t.closing| == |t.closing.Keys| && |s.closing.Keys| == |s.closing|;
  }

  /** Every stream someone has taken out of a registry can be closed, and closing touches no
      run. */
  lemma {:induction false} CanClose(s: State) returns (steps: seq<Step>)
    ensures Feasible(s, steps)
    ensures After(s, steps) == s.(closing := map[], closed := s.closed + s.closing.Keys)
    decreases |s.closing|
  {
    if s.closing == map[] {
      steps := [];
      assert s.closed + s.closing.Keys == s.closed;
    } else {
      var id :| id in s.closing;
      CloseOneLess(s, id);
      var rest := CanClose(Next(s, Call(CloseOne(id))));
      steps := [Call(CloseOne(id))] + rest;
      assert steps[1..] == rest;
    }
  }

  lemma {:induction false} RunCarries(s: State, steps: seq<Step>, r: RunId, id: StreamId, c: Client)
    requires Feasible(s, steps)
    ensures Carries(s, After(s, steps), r, id, c)
    decreases |steps|
  {
    if steps != [] {
      StepCarries(s, steps[0], r, id, c);
      RunCarries(Next(s, steps[0]), steps[1..], r, id, c);
    }
  }

  lemma NoRunStartsOnceDraining(s: State, steps: seq<Step>)
    requires s.draining && Feasible(s, steps)
    ensures After(s, steps).draining && After(s, steps).runs.Keys == s.runs.Keys
  {
    forall r ensures r in After(s, steps).runs.Keys <==> r in s.runs.Keys { RunCarries(s, steps, r, 0, 0); }
    RunCarries(s, steps, 0, 0, 0);
  }

  /** When a drain call returns there is no run left that is neither finished nor cancelled:
      not among those it found, and none has started since. */
  lemma DrainLeavesNothingRunning(s: State, c: Client, order: seq<RunId>, steps: seq<Step>, r: RunId)
    requires Reachable(s) && DrainEnabled(s, Begin(c, order))
    requires Feasible(DrainNext(s, Begin(c, order)), steps)
    requires var t := After(DrainNext(s, Begin(c, order)), steps);
      c in t.drains && t.drains[c].i == |t.drains[c].waits| && r in t.runs
    ensures FinishedOrCancelled(After(DrainNext(s, Begin(c, order)), steps), r)
  {
    ReachableInv(s);
    var begin := Drains(Begin(c, order));
    var u := Next(s, begin);
    var t := After(u, steps);
    StepKeepsInv(s, begin);
    RunKeepsInv(u, steps);
    RunCarries(u, steps, r, 0, c);
    assert RunInv(s, r) && DrainInv(t, c);
    if !FinishedOrCancelled(s, r) {
      assert r in order;
      var j :| 0 <= j < |order| && order[j] == r;
      assert t.drains[c].waits[j] == r;
    }
  }

  lemma LeadsOneMore(s: State, t: State, step: Step)
    requires LeadsTo(s, t) && Enabled(t, step)
    ensures LeadsTo(s, Next(t, step))
  {
    var steps :| Feasible(s, steps) && After(s, steps) == t;
    assert [step][1..] == [];
    AfterAppend(s, steps, [step]);
  }

  lemma LeadsOn(s: State, t: State, rest: seq<Step>)
    requires LeadsTo(s, t) && Feasible(t, rest)
    ensures LeadsTo(s, After(t, rest))
  {
    var steps :| Feasible(s, steps) && After(s, steps) == t;
    AfterAppend(s, steps, rest);
  }

  lemma LeadsKeepsInv(s: State, t: State)
    requires Inv(s) && LeadsTo(s, t)
    ensures Inv(t)
  {
    var steps :| Feasible(s, steps) && After(s, steps) == t;
    RunKeepsInv(s, steps);
  }

  lemma {:induction false} FreshId(used: set<StreamId>) returns (id: StreamId)
    ensures id !in used && forall x :: x in used ==> x < id
    decreases |used|
  {
    if used == {} {
      id := 0;
    } else {
      var x :| x in used;
      var rest := used - {x};
      id := FreshId(rest);
      forall y | y in used ensures y < id + x + 1 { assert y == x || y in rest; }
      id := id + x + 1;
    }
  }

  /** Whoever holds the registry lock of a finished run can let go of it. */
  lemma LockCanBeReleased(s: State, r: RunId) returns (t: State)
    requires Inv(s) && r in s.runs
    ensures LeadsTo(s, t) && r in t.runs && t.runs[r].lock == None && t.runs[r].sweep == s.runs[r].sweep
  {
    assert Feasible(s, []) && After(s, []) == s;
    t := s;
    assert RunInv(s, r);
    if s.runs[r].lock.Some? {
      var c := s.runs[r].lock.value;
      var id := FreshId(s.streams.Keys);
      LeadsOneMore(s, s, Call(SubscribeRegister(c, id)));
      t := Next(s, Call(SubscribeRegister(c, id)));
    }
  }

  lemma HubCanBeSwept(s: State, r: RunId) returns (t: State)
    requires Inv(s) && r in s.runs && s.runs[r].done
    ensures LeadsTo(s, t) && r in t.runs && t.runs[r].sweep != Waiting
  {
    assert Feasible(s, []) && After(s, []) == s;
    t := s;
    if s.runs[r].sweep == Waiting {
      LeadsOneMore(s, s, Life(SweepHub(r)));
      t := Next(s, Life(SweepHub(r)));
    }
  }

  lemma RegistryCanBeSwept(s: State, r: RunId) returns (t: State)
    requires Inv(s) && r in s.runs && s.runs[r].sweep != Waiting
    ensures LeadsTo(s, t) && r in t.runs && Swept(t.runs[r].sweep)
  {
    assert Feasible(s, []) && After(s, []) == s;
    t := s;
    if s.runs[r].sweep == HubClosed {
      var u := LockCanBeReleased(s, r);
      LeadsOneMore(s, u, Life(SweepCollect(r)));
      t := Next(u, Life(SweepCollect(r)));
    }
  }

  lemma LeadsTogether(s: State, t: State, u: State)
    requires LeadsTo(s, t) && LeadsTo(t, u)
    ensures LeadsTo(s, u)
  {
    var steps :| Feasible(t, steps) && After(t, steps) == u;
    LeadsOn(s, t, steps);
  }

  /** The sweep of a finished run can reach the point where all it collected is closed. */
  lemma SweepCanCollect(s: State, r: RunId) returns (t: State)
    requires Inv(s) && r in s.runs && s.runs[r].done
    ensures LeadsTo(s, t) && r in t.runs && Swept(t.runs[r].sweep) && t.closing == map[]
  {
    var u := HubCanBeSwept(s, r);
    LeadsKeepsInv(s, u);
    var v := RegistryCanBeSwept(u, r);
    LeadsTogether(s, u, v);
    var steps := CanClose(v);
    LeadsOn(s, v, steps);
    t := After(v, steps);
  }

  /** No deadlock: from any reachable state the sweep of a finished run can complete, and then
      every stream of the run is closed but late ones that are still registered. */
  lemma SweepCanComplete(s: State, r: RunId) returns (t: State)
    requires Reachable(s) && r in s.runs && s.runs[r].done
    ensures LeadsTo(s, t) && r in t.runs && t.runs[r].sweep == Deregistered
    ensures forall id :: id in t.streams && t.streams[id].run == r ==>
              (id in t.closed <==> !Registered(t, id)) && (!t.streams[id].late ==> id in t.closed)
  {
    ReachableInv(s);
    t := SweepCanCollect(s, r);
    if t.runs[r].sweep == Collected {
      LeadsOneMore(s, t, Life(Deregister(r)));
      t := Next(t, Life(Deregister(r)));
    }
    LeadsKeepsInv(s, t);
    forall id | id in t.streams && t.streams[id].run == r
      ensures (id in t.closed <==> !Registered(t, id)) && (!t.streams[id].late ==> id in t.closed)
    {
      assert StreamInv(t, id) && RunInv(t, r);
    }
  }

  lemma ReachOneMore(s: State, step: Step)
    requires Reachable(s) && Enabled(s, step)
    ensures Reachable(Next(s, step))
  {
    LeadsOneMore(INITIAL, s, step);
  }

  // ---------------------------------------------------------------- cancelling

  /** What no step takes back of one run: its key, that it is done, cancelled or asked to
      stop. */
  ghost predicate KeepsFlags(s: State, t: State, r: RunId) {
    r in s.runs ==>
      r in t.runs && t.runs[r].key == s.runs[r].key && (s.runs[r].done ==> t.runs[r].done)
      && (s.runs[r].cancelled ==> t.runs[r].cancelled) && (s.runs[r].asked ==> t.runs[r].asked)
  }

  lemma StepKeepsFlags(s: State, step: Step, r: RunId)
    requires Enabled(s, step)
    ensures KeepsFlags(s, Next(s, step), r)
  {
    match step
    case Life(life) => LifeKeepsFlags(s, life, r);
    case Call(call) => CallKeepsFlags(s, call, r);
    case Hub(hub) => HubKeepsFlags(s, hub, r);
    case Drains(drain) =>
  }

  lemma LifeKeepsFlags(s: State, step: LifeStep, r: RunId)
    requires LifeEnabled(s, step)
    ensures KeepsFlags(s, LifeNext(s, step), r)
  {
  }

  lemma CallKeepsFlags(s: State, step: CallStep, r: RunId)
    requires CallEnabled(s, step)
    ensures KeepsFlags(s, CallNext(s, step), r)
  {
  }

  lemma HubKeepsFlags(s: State, step: HubStep, r: RunId)
    requires HubEnabled(s, step)
    ensures KeepsFlags(s, HubNext(s, step), r)
  {
  }

  lemma {:induction false} StepsKeepFlags(s: State, steps: seq<Step>, r: RunId)
    requires Feasible(s, steps)
    ensures KeepsFlags(s, After(s, steps), r)
    decreases |steps|
  {
    if steps != [] {
      StepKeepsFlags(s, steps[0], r);
      StepsKeepFlags(Next(s, steps[0]), steps[1..], r);
    }
  }

  /** An explicit cancel asks the run it finds to stop. From then on, in every continuation, the
      run is done or its context can be cancelled at once, and a context once cancelled stays
      cancelled. */
  lemma CancelReaches(s: State, key: Key, steps: seq<Step>)
    requires Reachable(s) && key in s.live
    ensures Enabled(s, Life(Ask(key)))
    ensures Feasible(Next(s, Life(Ask(key))), steps) ==>
      var r, t := s.live[key], After(Next(s, Life(Ask(key))), steps);
      r in t.runs && t.runs[r].asked && t.runs[r].key == key && (t.runs[r].done || Enabled(t, Life(Escalate(r))))
  {
    ReachableInv(s);
    assert LiveInv(s, key);
    if Feasible(Next(s, Life(Ask(key))), steps) { StepsKeepFlags(Next(s, Life(Ask(key))), steps, s.live[key]); }
  }

  /** A run whose cancel is escalated is cancelled, and stays so in every continuation. */
  lemma EscalatedStaysCancelled(s: State, r: RunId, steps: seq<Step>)
    requires Enabled(s, Life(Escalate(r))) && Feasible(Next(s, Life(Escalate(r))), steps)
    ensures r in After(Next(s, Life(Escalate(r))), steps).runs
    ensures After(Next(s, Life(Escalate(r))), steps).runs[r].cancelled
  {
    StepsKeepFlags(Next(s, Life(Escalate(r))), steps, r);
  }

  ghost predicate CancelledForAReason(s: State, r: RunId) {
    r in s.runs && s.runs[r].cancelled ==> s.runs[r].asked || s.draining
  }

  lemma StepKeepsReason(s: State, step: Step, r: RunId)
    requires Enabled(s, step) && CancelledForAReason(s, r)
    requires step.Drains? && step.drain.Cancel? ==> s.draining
    ensures CancelledForAReason(Next(s, step), r)
  {
    match step
    case Life(life) => LifeKeepsReason(s, life, r);
    case Call(call) => CallKeepsReason(s, call, r);
    case Hub(hub) => HubKeepsReason(s, hub, r);
    case Drains(drain) => DrainKeepsReason(s, drain, r);
  }

  lemma LifeKeepsReason(s: State, step: LifeStep, r: RunId)
    requires LifeEnabled(s, step) && CancelledForAReason(s, r)
    ensures CancelledForAReason(LifeNext(s, step), r)
  {
  }

  lemma DrainKeepsReason(s: State, step: DrainStep, r: RunId)
    requires DrainEnabled(s, step) && CancelledForAReason(s, r) && (step.Cancel? ==> s.draining)
    ensures CancelledForAReason(DrainNext(s, step), r)
  {
  }

  lemma CallKeepsReason(s: State, step: CallStep, r: RunId)
    requires CallEnabled(s, step) && CancelledForAReason(s, r)
    ensures CancelledForAReason(CallNext(s, step), r)
  {
  }

  lemma HubKeepsReason(s: State, step: HubStep, r: RunId)
    requires HubEnabled(s, step) && CancelledForAReason(s, r)
    ensures CancelledForAReason(HubNext(s, step), r)
  {
  }

  lemma {:induction false} StepsKeepReason(s: State, steps: seq<Step>, r: RunId)
    requires Inv(s) && Feasible(s, steps) && CancelledForAReason(s, r)
    ensures CancelledForAReason(After(s, steps), r)
    decreases |steps|
  {
    if steps != [] {
      if steps[0].Drains? && steps[0].drain.Cancel? { assert DrainInv(s, steps[0].drain.c); }
      StepKeepsReason(s, steps[0], r);
      StepKeepsInv(s, steps[0]);
      StepsKeepReason(Next(s, steps[0]), steps[1..], r);
    }
  }

  /** Nothing else stops a run: a cancelled one was asked to stop, or the manager is draining. */
  lemma OnlyAskedOrDrainedIsCancelled(s: State, r: RunId)
    requires Reachable(s) && r in s.runs && s.runs[r].cancelled
    ensures s.runs[r].asked || s.draining
  {
    var steps :| Feasible(INITIAL, steps) && After(INITIAL, steps) == s;
    StepsKeepReason(INITIAL, steps, r);
  }

  // ---------------------------------------------------------------- late streams

  /** Once its hub is swept a progress stream that was not attached after that sweep is closed
      or about to be. */
  lemma ProgressStreamCloses(s: State, id: StreamId)
    requires Reachable(s) && id in s.streams && s.streams[id].progress
    ensures s.streams[id].run in s.runs
    ensures s.runs[s.streams[id].run].sweep != Waiting && !s.streams[id].late ==> id in s.closing || id in s.closed
    ensures s.streams[id].late ==> s.runs[s.streams[id].run].sweep != Waiting
  {
    ReachableInv(s);
    assert StreamInv(s, id);
  }

  /** Someone has taken the stream out of its registry. */
  predicate Taken(s: State, id: StreamId) {
    id in s.closing || id in s.closed
  }

  /** The caller looked the stream's run up while it was not done, to unfollow the stream's
      number in it. */
  predicate Aims(s: State, c: Client, id: StreamId)
    requires id in s.streams
  {
    c in s.pcs && s.pcs[c] == Unfollowing(s.streams[id].run, s.streams[id].number)
  }

  lemma TakenStaysInLife(s: State, step: LifeStep, id: StreamId)
    requires LifeEnabled(s, step) && Taken(s, id)
    ensures Taken(LifeNext(s, step), id)
  {
  }

  lemma TakenStaysInCall(s: State, step: CallStep, id: StreamId)
    requires CallEnabled(s, step) && Taken(s, id)
    ensures Taken(CallNext(s, step), id)
  {
  }

  lemma TakenStaysInHub(s: State, step: HubStep, id: StreamId)
    requires HubEnabled(s, step) && Taken(s, id)
    ensures Taken(HubNext(s, step), id)
  {
  }

  lemma TakenStays(s: State, step: Step, id: StreamId)
    requires Enabled(s, step) && Taken(s, id)
    ensures Taken(Next(s, step), id)
  {
    match step
    case Life(life) => TakenStaysInLife(s, life, id);
    case Call(call) => TakenStaysInCall(s, call, id);
    case Hub(hub) => TakenStaysInHub(s, hub, id);
    case Drains(drain) =>
  }

  lemma {:induction false} TakenForGood(s: State, steps: seq<Step>, id: StreamId)
    requires Feasible(s, steps) && Taken(s, id)
    ensures Taken(After(s, steps), id)
    decreases |steps|
  {
    if steps != [] {
      TakenStays(s, steps[0], id);
      TakenForGood(Next(s, steps[0]), steps[1..], id);
    }
  }

  lemma AimsStay(s: State, step: Step, c: Client, id: StreamId)
    requires Enabled(s, step) && id in s.streams && s.streams[id].run in s.runs && s.runs[s.streams[id].run].done
    ensures id in Next(s, step).streams && Next(s, step).streams[id] == s.streams[id]
    ensures Aims(Next(s, step), c, id) <==> Aims(s, c, id) && step != Hub(Unfollow(c))
  {
    StepCarries(s, step, 0, id, 0);
  }

  lemma LateLife(s: State, step: LifeStep, id: StreamId)
    requires LifeEnabled(s, step) && Known(s, id) && id in s.streams && s.streams[id].late && Registered(s, id)
    requires step.SweepHub? || step.SweepCollect? ==> RunInv(s, step.r)
    ensures !Taken(LifeNext(s, step), id)
  {
  }

  lemma LateCall(s: State, step: CallStep, id: StreamId)
    requires CallEnabled(s, step) && Known(s, id) && id in s.streams && s.streams[id].late && Registered(s, id)
    requires step.Unsubscribe? || step.CloseSubscribers? ==> RunInv(s, step.r)
    ensures !Taken(CallNext(s, step), id)
  {
  }

  lemma LateHub(s: State, step: HubStep, id: StreamId)
    requires HubEnabled(s, step) && Known(s, id) && id in s.streams && s.streams[id].late && Registered(s, id)
    requires step.Unfollow? ==> RunInv(s, s.pcs[step.c].run)
    ensures Taken(HubNext(s, step), id) <==> step.Unfollow? && Aims(s, step.c, id)
  {
  }

  lemma LateStep(s: State, step: Step, id: StreamId)
    requires Inv(s) && Enabled(s, step) && id in s.streams && s.streams[id].late && !Taken(s, id)
    ensures Taken(Next(s, step), id) <==> step.Hub? && step.hub.Unfollow? && Aims(s, step.hub.c, id)
  {
    assert StreamInv(s, id) && RunInv(s, s.streams[id].run);
    match step
    case Life(life) =>
      if life.SweepHub? || life.SweepCollect? { assert RunInv(s, life.r); }
      LateLife(s, life, id);
    case Call(call) =>
      if call.Unsubscribe? || call.CloseSubscribers? { assert RunInv(s, call.r); }
      LateCall(s, call, id);
    case Hub(hub) =>
      if hub.Unfollow? { assert RunInv(s, s.pcs[hub.c].run); }
      LateHub(s, hub, id);
    case Drains(drain) =>
  }

  ghost predicate Unfollowed(s: State, steps: seq<Step>, id: StreamId)
    requires id in s.streams
  {
    exists c :: Aims(s, c, id) && Hub(Unfollow(c)) in steps
  }

  lemma {:induction false} LateSteps(s: State, steps: seq<Step>, id: StreamId)
    requires Inv(s) && Feasible(s, steps) && id in s.streams && s.streams[id].late && !Taken(s, id)
    ensures Taken(After(s, steps), id) <==> Unfollowed(s, steps, id)
    decreases |steps|
  {
    if steps != [] {
      var step, rest := steps[0], steps[1..];
      var t := Next(s, step);
      assert StreamInv(s, id) && RunInv(s, s.streams[id].run);
      assert steps == [step] + rest;
      forall c ensures id in t.streams && (Aims(t, c, id) <==> Aims(s, c, id) && step != Hub(Unfollow(c))) {
        AimsStay(s, step, c, id);
      }
      AimsStay(s, step, 0, id);
      LateStep(s, step, id);
      if Taken(t, id) {
        TakenForGood(t, rest, id);
        assert step == Hub(Unfollow(step.hub.c)) && Aims(s, step.hub.c, id);
      } else {
        StepKeepsInv(s, step);
        LateSteps(t, rest, id);
        UnfollowedLater(s, step, rest, id);
      }
    }
  }

  lemma UnfollowedLater(s: State, step: Step, rest: seq<Step>, id: StreamId)
    requires Enabled(s, step) && id in s.streams && id in Next(s, step).streams
    requires forall c :: Aims(Next(s, step), c, id) <==> Aims(s, c, id) && step != Hub(Unfollow(c))
    requires !(step.Hub? && step.hub.Unfollow? && Aims(s, step.hub.c, id))
    ensures Unfollowed(s, [step] + rest, id) <==> Unfollowed(Next(s, step), rest, id)
  {
    var t := Next(s, step);
    if c :| Aims(s, c, id) && Hub(Unfollow(c)) in [step] + rest {
      assert Aims(t, c, id) && Hub(Unfollow(c)) in rest;
    }
    if c :| Aims(t, c, id) && Hub(Unfollow(c)) in rest {
      assert Aims(s, c, id) && Hub(Unfollow(c)) in [step] + rest;
    }
  }

  /** In every continuation a late stream is taken out of its hub exactly when a caller that had
      looked its run up before the run was done unfollows its number. */
  lemma LateStreamIsTakenIff(s: State, steps: seq<Step>, id: StreamId)
    requires Reachable(s) && Feasible(s, steps) && id in s.streams && s.streams[id].late && !Taken(s, id)
    ensures Taken(After(s, steps), id) <==> Unfollowed(s, steps, id)
  {
    ReachableInv(s);
    LateSteps(s, steps, id);
  }

  /** So it can still be closed exactly when there is such a caller; without one it is closed in
      no continuation. */
  lemma LateStreamCanCloseIff(s: State, id: StreamId)
    requires Reachable(s) && id in s.streams && s.streams[id].late && !Taken(s, id)
    ensures (exists t :: LeadsTo(s, t) && id in t.closed) <==> exists c :: Aims(s, c, id)
  {
    if t :| LeadsTo(s, t) && id in t.closed {
      var steps :| Feasible(s, steps) && After(s, steps) == t;
      LateStreamIsTakenIff(s, steps, id);
    }
    if c :| Aims(s, c, id) {
      var t := LateStreamIsClosed(s, id, c);
    }
  }

  lemma LateStreamIsClosed(s: State, id: StreamId, c: Client) returns (t: State)
    requires Reachable(s) && id in s.streams && s.streams[id].late && !Taken(s, id) && Aims(s, c, id)
    ensures LeadsTo(s, t) && id in t.closed
  {
    ReachableInv(s);
    assert StreamInv(s, id);
    assert Feasible(s, []) && After(s, []) == s;
    LeadsOneMore(s, s, Hub(Unfollow(c)));
    var u := Next(s, Hub(Unfollow(c)));
    LeadsOneMore(s, u, Call(CloseOne(id)));
    t := Next(u, Call(CloseOne(id)));
  }

  // ---------------------------------------------------------------- whose stream a caller closes

  /** What an unsubscribe takes out, when the caller names its stream's number in whatever run it
      has looked up: its own stream or none exactly in that stream's run or when no stream has
      the number in the other. */
  lemma UnsubscribeTakesOwnIff(s: State, own: StreamId, r: RunId)
    requires Reachable(s) && own in s.streams && !s.streams[own].progress
    requires CallEnabled(s, Unsubscribe(r, s.streams[own].number))
    ensures var t := CallNext(s, Unsubscribe(r, s.streams[own].number));
      (forall id :: Taken(t, id) && !Taken(s, id) ==> id == own)
      <==> r == s.streams[own].run || s.streams[own].number !in s.runs[r].subs.streams
  {
    ReachableInv(s);
    assert StreamInv(s, own) && RunInv(s, r);
    TakesOwnIff(s, own, r, s.runs[r].subs, false);
  }

  lemma TakesOwnIff(s: State, own: StreamId, r: RunId, g: Registry, progress: bool)
    requires Inv(s) && own in s.streams && s.streams[own].progress == progress && r in s.runs
    requires g == (if progress then s.runs[r].progress else s.runs[r].subs)
    ensures var closing := TakeOne(s.closing, g, s.streams[own].number);
      (forall id :: id in closing && !Taken(s, id) ==> id == own)
      <==> r == s.streams[own].run || s.streams[own].number !in g.streams
  {
    var number := s.streams[own].number;
    assert StreamInv(s, own) && RunInv(s, r);
    if number in g.streams {
      var id := g.streams[number];
      assert StreamInv(s, id);
      assert id in TakeOne(s.closing, g, number) && !Taken(s, id);
    }
  }

  /** And what an unfollow takes out, in the hub of the run that was looked up. */
  lemma UnfollowTakesOwnIff(s: State, own: StreamId, c: Client)
    requires Reachable(s) && own in s.streams && s.streams[own].progress
    requires c in s.pcs && s.pcs[c].Unfollowing? && s.pcs[c].number == s.streams[own].number
    ensures HubEnabled(s, Unfollow(c))
    ensures var t, r := HubNext(s, Unfollow(c)), s.pcs[c].run;
      (forall id :: Taken(t, id) && !Taken(s, id) ==> id == own)
      <==> r == s.streams[own].run || s.streams[own].number !in s.runs[r].progress.streams
  {
    ReachableInv(s);
    assert ClientInv(s, c) && StreamInv(s, own);
    TakesOwnIff(s, own, s.pcs[c].run, s.runs[s.pcs[c].run].progress, true);
  }

  // ---------------------------------------------------------------- a number from an earlier run

  /** A caller that saw its run alive takes the hub's lock only after the sweep has: its
      stream is late. */
  lemma LateStreamIsReachable()
    ensures exists s :: Reachable(s) && 0 in s.streams && s.streams[0].late
  {
    assert Feasible(INITIAL, []) && After(INITIAL, []) == INITIAL;
    assert LeadsTo(INITIAL, INITIAL);
    var s1 := Next(INITIAL, Life(Start("k", 0)));
    ReachOneMore(INITIAL, Life(Start("k", 0)));
    var s2 := Next(s1, Hub(FollowCheck(0, 0)));
    ReachOneMore(s1, Hub(FollowCheck(0, 0)));
    var s3 := Next(s2, Life(Finish(0)));
    ReachOneMore(s2, Life(Finish(0)));
    var s4 := Next(s3, Life(SweepHub(0)));
    ReachOneMore(s3, Life(SweepHub(0)));
    ReachOneMore(s4, Hub(FollowRegister(0, 0)));
  }

  /** Run 0 of session "k", with the streams its hub holds. */
  function FirstRun(done: bool, sweep: Sweep, progress: Registry): Run {
    Run("k", done, false, false, sweep, None, NO_STREAMS, progress)
  }

  const FIRST_STREAM := Stream(0, true, false, 1)

  /** Client 0 has looked run 0 up; it follows its tasks, as number 1, until the run is done; the
      hub has been swept; the run is over. */
  const LOOKED_UP := State(
    map["k" := 0], map[0 := FirstRun(false, Waiting, NO_STREAMS)], false,
    map[], map[], {}, map[0 := Following(0)], map[])

  const FOLLOWED := State(
    map["k" := 0], map[0 := FirstRun(true, Waiting, Registry(1, map[1 := 0]))], false,
    map[0 := FIRST_STREAM], map[], {}, map[], map[])

  const SWEPT := State(
    map["k" := 0], map[0 := FirstRun(true, HubClosed, Registry(1, map[]))], false,
    map[0 := FIRST_STREAM], map[], {0}, map[], map[])

  const OVER := State(
    map[], map[0 := FirstRun(true, Deregistered, Registry(1, map[]))], false,
    map[0 := FIRST_STREAM], map[], {0}, map[], map[])

  lemma FirstRunIsLookedUp()
    ensures Reachable(LOOKED_UP)
  {
    assert Feasible(INITIAL, []) && After(INITIAL, []) == INITIAL;
    assert LeadsTo(INITIAL, INITIAL);
    ReachOneMore(INITIAL, Life(Start("k", 0)));
    var s := Next(INITIAL, Life(Start("k", 0)));
    ReachOneMore(s, Hub(FollowCheck(0, 0)));
    assert Next(s, Hub(FollowCheck(0, 0))) == LOOKED_UP;
  }

  lemma FirstRunIsFollowed()
    ensures Reachable(FOLLOWED)
  {
    FirstRunIsLookedUp();
    ReachOneMore(LOOKED_UP, Hub(FollowRegister(0, 0)));
    var s := Next(LOOKED_UP, Hub(FollowRegister(0, 0)));
    assert s.pcs == map[];
    ReachOneMore(s, Life(Finish(0)));
    assert Next(s, Life(Finish(0))) == FOLLOWED;
  }

  lemma TakeTheOne(g: Registry, number: nat, id: StreamId, who: Closer)
    requires g.streams == map[number := id]
    ensures Take(g, who) == map[id := who]
  {
    assert number in g.streams.Keys && g.streams[number] in g.streams.Values;
  }

  lemma FirstHubIsSwept()
    ensures Reachable(SWEPT)
  {
    FirstRunIsFollowed();
    ReachOneMore(FOLLOWED, Life(SweepHub(0)));
    var s := Next(FOLLOWED, Life(SweepHub(0)));
    TakeTheOne(Registry(1, map[1 := 0]), 1, 0, BySweep);
    assert s.closing == map[0 := BySweep];
    ReachOneMore(s, Call(CloseOne(0)));
    assert Next(s, Call(CloseOne(0))) == SWEPT;
  }

  lemma FirstRunEnds()
    ensures Reachable(OVER)
  {
    FirstHubIsSwept();
    ReachOneMore(SWEPT, Life(SweepCollect(0)));
    var s := Next(SWEPT, Life(SweepCollect(0)));
    assert s.closing == map[];
    ReachOneMore(s, Life(Deregister(0)));
    assert Next(s, Life(Deregister(0))) == OVER;
  }

  /** In the next run of the session client 0 has looked the run up to unfollow its number, and
      client 1 has looked it up to follow. */
  const AGAIN := State(
    map["k" := 1],
    OVER.runs[1 := Run("k", false, false, false, Waiting, None, NO_STREAMS, NO_STREAMS)], false,
    map[0 := FIRST_STREAM], map[], {0}, map[0 := Unfollowing(1, 1), 1 := Following(1)], map[])

  lemma NextRunIsLookedUp()
    ensures Reachable(AGAIN)
  {
    FirstRunEnds();
    var s1 := Next(OVER, Life(Start("k", 1)));
    ReachOneMore(OVER, Life(Start("k", 1)));
    var s2 := Next(s1, Hub(UnfollowCheck(0, 1, 1)));
    ReachOneMore(s1, Hub(UnfollowCheck(0, 1, 1)));
    ReachOneMore(s2, Hub(FollowCheck(1, 1)));
    assert Next(s2, Hub(FollowCheck(1, 1))) == AGAIN;
  }

  /** Numbers start again in each run, and a client that leaves late names its own in the run of
      another: it takes out that client's stream, while the run goes on. */
  lemma StaleNumberClosesAnothersStream()
    ensures exists s ::
      Reachable(s) && s.pcs == map[0 := Unfollowing(1, 1)] && 1 in s.runs && !s.runs[1].done && !Taken(s, 1)
      && s.streams == map[0 := FIRST_STREAM, 1 := Stream(1, true, false, 1)]
      && Taken(HubNext(s, Unfollow(0)), 1)
  {
    NextRunIsLookedUp();
    var s := Next(AGAIN, Hub(FollowRegister(1, 1)));
    ReachOneMore(AGAIN, Hub(FollowRegister(1, 1)));
    assert s.pcs == map[0 := Unfollowing(1, 1)];
    assert HubEnabled(s, Unfollow(0)) && Taken(HubNext(s, Unfollow(0)), 1);
  }

  /** The same stale number is what closes a late stream. */
  lemma StaleNumberClosesALateStream()
    ensures exists s :: Reachable(s) && 1 in s.streams && s.streams[1].late && 1 in s.closed
  {
    var s := LateBehindAStaleLookup();
    var t := LateStreamIsClosed(s, 1, 0);
    LeadsTogether(INITIAL, s, t);
    LateStays(s, t, 1);
  }

  lemma SweptBehindAStaleLookup() returns (s: State)
    ensures Reachable(s) && s == Next(Next(AGAIN, Life(Finish(1))), Life(SweepHub(1)))
    ensures s.pcs == AGAIN.pcs && s.streams == AGAIN.streams && 1 in s.runs && s.runs[1].sweep == HubClosed
    ensures s.runs[1].progress.last == 0 && 1 !in s.closing && 1 !in s.closed
  {
    NextRunIsLookedUp();
    var t := Next(AGAIN, Life(Finish(1)));
    ReachOneMore(AGAIN, Life(Finish(1)));
    s := Next(t, Life(SweepHub(1)));
    ReachOneMore(t, Life(SweepHub(1)));
  }

  lemma LateBehindAStaleLookup() returns (s: State)
    ensures Reachable(s) && 1 in s.streams && s.streams[1].late && !Taken(s, 1) && Aims(s, 0, 1)
  {
    var t := SweptBehindAStaleLookup();
    s := Next(t, Hub(FollowRegister(1, 1)));
    ReachOneMore(t, Hub(FollowRegister(1, 1)));
  }

  lemma LateStays(s: State, t: State, id: StreamId)
    requires LeadsTo(s, t) && id in s.streams
    ensures id in t.streams && t.streams[id] == s.streams[id]
  {
    var steps :| Feasible(s, steps) && After(s, steps) == t;
    RunCarries(s, steps, 0, id, 0);
  }
}
