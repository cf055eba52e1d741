/** The hub that fans task progress: its registry of cursors and subscribers, and what
    every interleaving of its critical sections fans for one task. */
module ProgressHub {
  import opened Sequences
  import opened EventStream
  import Streams = EventStream
  import opened TaskProgress

  /** Per-task drain state: the lane kind, empty until known, and the records fanned. */
  datatype Cursor = Cursor(kind: string, seen: nat)

  /** How looking the task up in the task manager went. */
  datatype Lookup = Found | NotFound | LookupFailed

  // ---------------------------------------------------------------- one critical section each

  /** The hub's cursors, everything it has fanned, in order, and the tasks whose terminal
      notification it has handled. */
  datatype State = State(cursors: map<string, Cursor>, fanned: seq<Frame>, done: set<string>)

  function Tracked(s: State, t: string): State {
    if t in s.cursors then s else s.(cursors := s.cursors[t := Cursor("", 0)])
  }

  /** One drain of a task whose lane kind is `kind` and whose log holds `log`. */
  function Drained(s: State, t: string, kind: string, log: seq<Event>, lookup: Lookup, readOk: bool): (r: State)
    ensures s.fanned <= r.fanned
  {
    if t !in s.cursors then s
    else
      var c := s.cursors[t];
      if c.kind == "" && lookup == NotFound then s.(cursors := s.cursors - {t})
      else if c.kind == "" && lookup == LookupFailed then s
      else
        var k := if c.kind == "" then kind else c.kind;
        if !readOk then s.(cursors := s.cursors[t := Cursor(k, c.seen)])
        else
          var records := Records(k, log);
          s.(cursors := s.cursors[t := Cursor(k, |records|)],
             fanned := s.fanned + Frames(t, k, records, c.seen))
  }

  /** The terminal notification: final records, the terminal frame, then the cursor goes. */
  function Ended(s: State, t: string, payloadKind: string, log: seq<Event>, outcome: Outcome, readOk: bool): (r: State)
    ensures s.fanned <= r.fanned
  {
    var c := if t in s.cursors then s.cursors[t] else Cursor("", 0);
    var k := if c.kind == "" then payloadKind else c.kind;
    var rest := if readOk then Frames(t, k, Records(k, log), c.seen) else [];
    State(s.cursors - {t}, s.fanned + rest + [TerminalFrame(t, k, outcome)], s.done + {t})
  }

  // ---------------------------------------------------------------- the hub itself

  class TaskProgressHub {
    var nextSub: nat
    var subs: map<nat, EventStream<Frame>>
    var tasks: map<string, Cursor>
    ghost var fanned: seq<Frame>
    ghost var done: set<string>

    /** No two subscriptions share a stream, and ids are never reused. */
    ghost predicate Valid()
      reads this
    {
      (forall i, j :: i in subs && j in subs && i != j ==> subs[i] != subs[j])
      && (forall i :: i in subs ==> i <= nextSub)
    }

    ghost function View(): State
      reads this
    {
      State(tasks, fanned, done)
    }

    constructor ()
      ensures Valid() && View() == State(map[], [], {}) && subs == map[]
    {
      nextSub, subs, tasks := 0, map[], map[];
      fanned, done := [], {};
    }

    method Subscribe() returns (id: nat, stream: EventStream<Frame>)
      requires Valid()
      modifies this
      ensures Valid() && fresh(stream) && id !in old(subs) && subs == old(subs)[id := stream]
      ensures stream.View() == Stream(128, [], false, 0)
      ensures View() == old(View())
    {
      nextSub := nextSub + 1;
      id := nextSub;
      stream := new EventStream(128);
      subs := subs[id := stream];
    }

    method Unsubscribe(id: nat)
      requires Valid()
      modifies this, if id in subs then {subs[id]} else {}
      ensures Valid() && subs == old(subs) - {id} && View() == old(View())
      ensures id in old(subs) ==> old(subs)[id].View() == old(subs[id].View()).(closed := true)
    {
      if id in subs {
        var stream := subs[id];
        subs := subs - {id};
        stream.Close();
      }
    }

    /** Sends one frame to every subscriber; a full stream only drops its own. */
    method Fan(frame: Frame)
      requires Valid()
      modifies this`fanned, subs.Values
      ensures Valid() && fanned == old(fanned) + [frame]
      ensures forall i :: i in subs ==> subs[i].View() == Sent(old(subs[i].View()), frame)
    {
      var ids := subs.Keys;
      fanned := fanned + [frame];
      while ids != {}
        invariant ids <= subs.Keys
        invariant Valid() && fanned == old(fanned) + [frame]
        invariant forall i :: i in subs ==>
                    subs[i].View() == if i in ids then old(subs[i].View()) else Sent(old(subs[i].View()), frame)
        decreases ids
      {
        var i :| i in ids;
        assert subs[i] in subs.Values;
        var accepted := subs[i].Send(frame);
        ids := ids - {i};
      }
    }

    method FanAll(frames: seq<Frame>)
      requires Valid()
      modifies this`fanned, subs.Values
      ensures Valid() && fanned == old(fanned) + frames
      ensures forall i :: i in subs ==> subs[i].View() == SentAll(old(subs[i].View()), frames)
    {
      assert frames[..0] == [];
      for n := 0 to |frames|
        invariant Valid() && fanned == old(fanned) + frames[..n]
        invariant forall i :: i in subs ==> subs[i].View() == SentAll(old(subs[i].View()), frames[..n])
      {
        forall i | i in subs ensures SentAll(old(subs[i].View()), frames[..n + 1])
                                  == Sent(SentAll(old(subs[i].View()), frames[..n]), frames[n]) {
          assert frames[..n + 1] == frames[..n] + [frames[n]];
          SentAllOneMore(old(subs[i].View()), frames[..n], frames[n]);
        }
        Fan(frames[n]);
      }
      assert frames[..|frames|] == frames;
    }

    method Track(t: string)
      requires Valid()
      modifies this`tasks
      ensures View() == Tracked(old(View()), t)
    {
      if t !in tasks {
        tasks := tasks[t := Cursor("", 0)];
      }
    }

    /** Reads past the cursor and fans what it finds. */
    method ReadAndFan(t: string, c: Cursor, log: seq<Event>, limit: nat) returns (sent: seq<Frame>)
      requires Valid() && limit >= 1
      modifies this`tasks, this`fanned, subs.Values
      ensures Valid() && sent == Frames(t, c.kind, Records(c.kind, log), c.seen)
      ensures tasks == old(tasks)[t := Cursor(c.kind, |Records(c.kind, log)|)]
      ensures fanned == old(fanned) + sent
      ensures forall i :: i in subs ==> subs[i].View() == SentAll(old(subs[i].View()), sent)
    {
      var seen;
      sent, seen := ReadTaskProgressFrames(log, t, c.kind, c.seen, limit);
      tasks := tasks[t := Cursor(c.kind, seen)];
      FanAll(sent);
    }

    /** One drain. Every subscriber is sent exactly the frames it adds to the fan. */
    method DrainTask(t: string, kind: string, log: seq<Event>, lookup: Lookup, readOk: bool, limit: nat)
      returns (ghost sent: seq<Frame>)
      requires Valid() && limit >= 1
      modifies this`tasks, this`fanned, subs.Values
      ensures Valid() && View() == Drained(old(View()), t, kind, log, lookup, readOk)
      ensures fanned == old(fanned) + sent
      ensures forall i :: i in subs ==> subs[i].View() == SentAll(old(subs[i].View()), sent)
    {
      sent := [];
      assert fanned + [] == fanned;
      if t !in tasks {
        return;
      }
      var cursor := tasks[t];
      if cursor.kind == "" {
        match lookup {
          case NotFound =>
            tasks := tasks - {t};
            return;
          case LookupFailed =>
            return;
          case Found =>
            cursor := Cursor(kind, cursor.seen);
        }
      }
      if !readOk {
        tasks := tasks[t := cursor];
        return;
      }
      sent := ReadAndFan(t, cursor, log, limit);
    }

    method FinalRead(t: string, c: Cursor, log: seq<Event>, readOk: bool, limit: nat) returns (frames: seq<Frame>)
      requires limit >= 1
      ensures frames == if readOk then Frames(t, c.kind, Records(c.kind, log), c.seen) else []
    {
      frames := [];
      if readOk {
        var seen;
        frames, seen := ReadTaskProgressFrames(log, t, c.kind, c.seen, limit);
      }
    }

    /** The terminal notification, for a task tracked or not. */
    method Terminal(t: string, payloadKind: string, log: seq<Event>, outcome: Outcome, readOk: bool, limit: nat)
      returns (ghost sent: seq<Frame>)
      requires Valid() && limit >= 1
      modifies this`tasks, this`fanned, this`done, subs.Values
      ensures Valid() && View() == Ended(old(View()), t, payloadKind, log, outcome, readOk)
      ensures fanned == old(fanned) + sent
      ensures forall i :: i in subs ==> subs[i].View() == SentAll(old(subs[i].View()), sent)
    {
      var cursor := if t in tasks then tasks[t] else Cursor("", 0);
      if cursor.kind == "" {
        cursor := cursor.(kind := payloadKind);
      }
      var frames := FinalRead(t, cursor, log, readOk, limit);
      Regroup(fanned, frames, [TerminalFrame(t, cursor.kind, outcome)]);
      frames := frames + [TerminalFrame(t, cursor.kind, outcome)];
      FanAll(frames);
      sent := frames;
      tasks := tasks - {t};
      done := done + {t};
    }

    /** The run-end sweep: every subscriber's stream closes and keeps what it holds. */
    method Close()
      requires Valid()
      modifies this`subs, subs.Values
      ensures Valid() && subs == map[] && View() == old(View())
      ensures forall i :: i in old(subs) ==> old(subs)[i].View() == old(subs[i].View()).(closed := true)
    {
      var all := subs;
      var ids := all.Keys;
      subs := map[];
      while ids != {}
        invariant ids <= all.Keys && all == old(subs)
        invariant subs == map[] && View() == old(View())
        invariant forall i :: i in all ==>
                    all[i].View() == if i in ids then old(subs[i].View()) else old(subs[i].View()).(closed := true)
        decreases ids
      {
        var i :| i in ids;
        assert all[i] in all.Values;
        all[i].Close();
        ids := ids - {i};
      }
    }
  }

  // ---------------------------------------------------------------- every interleaving

  /** The hub's critical sections, the appends of the tasks it reads, and what happens to a
      stream outside the hub's lock: a detached one is closed, and any is read from. */
  datatype Step =
    | Append(t: string, event: Event)
    | Track(t: string)
    | Drain(t: string, lookup: Lookup, readOk: bool)
    | Terminal(t: string, lookup: Lookup, outcome: Outcome, readOk: bool)
    | Subscribe(id: nat)
    | Unsubscribe(id: nat)
    | DetachAll
    | Shut(id: nat)
    | Receive(id: nat)

  /** A subscriber's stream with what it was offered and what was read from it, how much had
      been fanned when it was attached, and how much when it was detached. */
  datatype Tap = Tap(history: History<Frame>, from: nat, until: Option<nat>)

  /** The hub together with the task event logs it reads and every stream it ever attached. */
  datatype World = World(hub: State, logs: map<string, seq<Event>>, taps: map<nat, Tap>)

  function Log(w: World, t: string): seq<Event> {
    if t in w.logs then w.logs[t] else []
  }

  function Sends(frames: seq<Frame>): seq<Op<Frame>> {
    Map((f: Frame) => Op.Send(f), frames)
  }

  function Fed(tap: Tap, frames: seq<Frame>): Tap {
    if tap.until.Some? then tap else tap.(history := Streams.Run(tap.history, Sends(frames)))
  }

  function Detached(tap: Tap, fanned: nat): Tap {
    if tap.until.Some? then tap else tap.(until := Some(fanned))
  }

  /** The hub moves on; what it has fanned meanwhile goes to the streams attached. */
  function Moved(w: World, hub: State): World
    requires w.hub.fanned <= hub.fanned
  {
    World(hub, w.logs, map id | id in w.taps :: Fed(w.taps[id], hub.fanned[|w.hub.fanned|..]))
  }

  const NEW_HISTORY: History<Frame> := History(Stream(128, [], false, 0), [], [])

  /** One atomic step; `kinds` gives each task's lane kind in the task manager. A terminal
      payload carries the kind only when the lookup succeeds. */
  function Next(kinds: string -> string, w: World, step: Step): World {
    match step
    case Append(t, e) => w.(logs := w.logs[t := Log(w, t) + [e]])
    case Track(t) => w.(hub := Tracked(w.hub, t))
    case Drain(t, lookup, ok) => Moved(w, Drained(w.hub, t, kinds(t), Log(w, t), lookup, ok))
    case Terminal(t, lookup, outcome, ok) =>
      Moved(w, Ended(w.hub, t, if lookup == Found then kinds(t) else "", Log(w, t), outcome, ok))
    case Subscribe(id) => if id in w.taps then w else w.(taps := w.taps[id := Tap(NEW_HISTORY, |w.hub.fanned|, None)])
    case Unsubscribe(id) =>
      if id in w.taps then w.(taps := w.taps[id := Detached(w.taps[id], |w.hub.fanned|)]) else w
    case Receive(id) =>
      if id in w.taps then
        w.(taps := w.taps[id := w.taps[id].(history := Streams.Step(w.taps[id].history, Recv))])
      else w
    case DetachAll => w.(taps := map id | id in w.taps :: Detached(w.taps[id], |w.hub.fanned|))
    case Shut(id) =>
      if id in w.taps && w.taps[id].until.Some? then
        w.(taps := w.taps[id := w.taps[id].(history := Streams.Step(w.taps[id].history, Close))])
      else w
  }

  /** Each task's notifications are handled once: nothing registers or ends it after its
      terminal one. And no task of which something was shown under an empty lane kind goes
      missing from the manager. */
  predicate Orderly(w: World, step: Step) {
    match step
    case Track(t) => t !in w.hub.done
    case Terminal(t, _, _, _) => t !in w.hub.done
    case Drain(t, lookup, _) =>
      lookup == NotFound && t in w.hub.cursors && w.hub.cursors[t].kind == "" ==> w.hub.cursors[t].seen == 0
    case _ => true
  }

  function OfTask(t: string, frames: seq<Frame>): seq<Frame> {
    if frames == [] then []
    else (if frames[0].taskId == t then [frames[0]] else []) + OfTask(t, frames[1..])
  }

  lemma {:induction false} OfTaskAppend(t: string, a: seq<Frame>, b: seq<Frame>)
    ensures OfTask(t, a + b) == OfTask(t, a) + OfTask(t, b)
  {
    if a == [] {
      assert a + b == b;
    } else {
      assert (a + b)[1..] == a[1..] + b && (a + b)[0] == a[0];
      OfTaskAppend(t, a[1..], b);
      Regroup(if a[0].taskId == t then [a[0]] else [], OfTask(t, a[1..]), OfTask(t, b));
    }
  }

  lemma {:induction false} OfTaskOwn(t: string, frames: seq<Frame>)
    requires forall i :: 0 <= i < |frames| ==> frames[i].taskId == t
    ensures OfTask(t, frames) == frames
    ensures forall u :: u != t ==> OfTask(u, frames) == []
  {
    if frames != [] { OfTaskOwn(t, frames[1..]); }
  }

  /** The first n record frames of the task under one kind. */
  function FirstFrames(t: string, kind: string, log: seq<Event>, n: nat): seq<Frame>
    requires n <= |Records(kind, log)|
  {
    Frames(t, kind, Records(kind, log)[..n], 0)
  }

  /** What has been fanned for a task that has not ended: exactly its first `seen` records,
      in order and numbered from 1, under its one kind. Once a record is out the kind is
      fixed. Nothing at all for a task without a cursor. */
  ghost predicate Following(kind: string, w: World, t: string) {
    if t in w.hub.cursors then
      var c := w.hub.cursors[t];
      (c.kind == "" || c.kind == kind)
      && (c.seen > 0 ==> c.kind == kind)
      && c.seen <= |Records(kind, Log(w, t))|
      && OfTask(t, w.hub.fanned) == FirstFrames(t, kind, Log(w, t), c.seen)
    else OfTask(t, w.hub.fanned) == []
  }

  /** What has been fanned for a task that has ended: its first n records under one kind,
      then one terminal frame, then nothing. */
  ghost predicate Finished(w: World, t: string, k: string, n: nat, outcome: Outcome) {
    n <= |Records(k, Log(w, t))|
    && OfTask(t, w.hub.fanned) == FirstFrames(t, k, Log(w, t), n) + [TerminalFrame(t, k, outcome)]
  }

  ghost predicate TaskInv(kinds: string -> string, w: World, t: string) {
    if t in w.hub.done then
      t !in w.hub.cursors && exists k: string, n: nat, outcome: Outcome :: Finished(w, t, k, n, outcome)
    else Following(kinds(t), w, t)
  }

  ghost predicate Inv(kinds: string -> string, w: World) {
    forall t :: TaskInv(kinds, w, t)
  }

  const INITIAL := World(State(map[], [], {}), map[], map[])

  // ---------------------------------------------------------------- each step keeps it

  lemma FirstFramesStay(t: string, kind: string, log: seq<Event>, e: Event, n: nat)
    requires n <= |Records(kind, log)|
    ensures n <= |Records(kind, log + [e])|
    ensures FirstFrames(t, kind, log + [e], n) == FirstFrames(t, kind, log, n)
  {
    RecordsAppend(kind, log, [e]);
    assert Records(kind, log + [e])[..n] == Records(kind, log)[..n];
  }

  lemma AppendKeeps(kinds: string -> string, w: World, u: string, e: Event, t: string)
    requires TaskInv(kinds, w, t)
    ensures TaskInv(kinds, Next(kinds, w, Append(u, e)), t)
  {
    var w' := Next(kinds, w, Append(u, e));
    assert Log(w', t) == if t == u then Log(w, t) + [e] else Log(w, t);
    if t in w.hub.done {
      var k: string, n: nat, outcome: Outcome :| Finished(w, t, k, n, outcome);
      FirstFramesStay(t, k, Log(w, t), e, n);
      assert Finished(w', t, k, n, outcome);
    } else if t in w.hub.cursors {
      FirstFramesStay(t, kinds(t), Log(w, t), e, w.hub.cursors[t].seen);
    }
  }

  /** Frames past the first n complete the first n. */
  lemma FirstThenRest(t: string, kind: string, log: seq<Event>, n: nat)
    requires n <= |Records(kind, log)|
    ensures FirstFrames(t, kind, log, n) + Frames(t, kind, Records(kind, log), n)
         == FirstFrames(t, kind, log, |Records(kind, log)|)
  {
    var records := Records(kind, log);
    assert records[..n] + records[n..] == records;
    assert records[..|records|] == records;
    FramesOfMore(t, kind, records[..n], records[n..], 0);
  }

  lemma FannedFor(t: string, fanned: seq<Frame>, own: seq<Frame>)
    requires forall i :: 0 <= i < |own| ==> own[i].taskId == t
    ensures OfTask(t, fanned + own) == OfTask(t, fanned) + own
    ensures forall u :: u != t ==> OfTask(u, fanned + own) == OfTask(u, fanned)
  {
    OfTaskOwn(t, own);
    OfTaskAppend(t, fanned, own);
    forall u | u != t ensures OfTask(u, fanned + own) == OfTask(u, fanned) {
      OfTaskAppend(u, fanned, own);
    }
  }

  lemma OthersUntouched(kinds: string -> string, w: World, w': World, t: string)
    requires TaskInv(kinds, w, t)
    requires w'.logs == w.logs
    requires t in w'.hub.cursors <==> t in w.hub.cursors
    requires t in w.hub.cursors ==> w'.hub.cursors[t] == w.hub.cursors[t]
    requires t in w'.hub.done <==> t in w.hub.done
    requires OfTask(t, w'.hub.fanned) == OfTask(t, w.hub.fanned)
    ensures TaskInv(kinds, w', t)
  {
    if t in w.hub.done {
      var k: string, n: nat, outcome: Outcome :| Finished(w, t, k, n, outcome);
      assert Finished(w', t, k, n, outcome);
    }
  }

  /** The frames one step adds for its task. */
  function DrainFrames(kinds: string -> string, w: World, u: string, lookup: Lookup, ok: bool): seq<Frame> {
    if u !in w.hub.cursors || !ok then []
    else
      var c := w.hub.cursors[u];
      if c.kind == "" && lookup != Found then []
      else
        var k := if c.kind == "" then kinds(u) else c.kind;
        Frames(u, k, Records(k, Log(w, u)), c.seen)
  }

  lemma DrainAdds(kinds: string -> string, w: World, u: string, lookup: Lookup, ok: bool)
    ensures var w' := Next(kinds, w, Drain(u, lookup, ok));
            var own := DrainFrames(kinds, w, u, lookup, ok);
            w'.hub.fanned == w.hub.fanned + own
            && OfTask(u, w'.hub.fanned) == OfTask(u, w.hub.fanned) + own
            && forall t :: t != u ==> OfTask(t, w'.hub.fanned) == OfTask(t, w.hub.fanned)
  {
    var own := DrainFrames(kinds, w, u, lookup, ok);
    FannedFor(u, w.hub.fanned, own);
    assert w.hub.fanned + [] == w.hub.fanned;
  }

  lemma DrainKeepsOwn(kinds: string -> string, w: World, u: string, lookup: Lookup, ok: bool)
    requires TaskInv(kinds, w, u) && u in w.hub.cursors
    requires Orderly(w, Drain(u, lookup, ok))
    ensures TaskInv(kinds, Next(kinds, w, Drain(u, lookup, ok)), u)
  {
    var w' := Next(kinds, w, Drain(u, lookup, ok));
    var c := w.hub.cursors[u];
    DrainAdds(kinds, w, u, lookup, ok);
    assert Log(w', u) == Log(w, u);
    if c.kind == "" && lookup == NotFound {
      assert c.seen == 0;
    } else if DrainFrames(kinds, w, u, lookup, ok) != [] || ok {
      FirstThenRest(u, kinds(u), Log(w, u), c.seen);
    }
  }

  lemma DrainKeeps(kinds: string -> string, w: World, u: string, lookup: Lookup, ok: bool, t: string)
    requires TaskInv(kinds, w, t) && TaskInv(kinds, w, u)
    requires Orderly(w, Drain(u, lookup, ok))
    ensures TaskInv(kinds, Next(kinds, w, Drain(u, lookup, ok)), t)
  {
    if u in w.hub.cursors && u == t {
      DrainKeepsOwn(kinds, w, u, lookup, ok);
    } else {
      DrainAdds(kinds, w, u, lookup, ok);
      OthersUntouched(kinds, w, Next(kinds, w, Drain(u, lookup, ok)), t);
    }
  }

  /** Whether a drain gets as far as reading the task's log. */
  predicate Reads(w: World, t: string, lookup: Lookup, ok: bool) {
    t in w.hub.cursors && ok && (w.hub.cursors[t].kind != "" || lookup == Found)
  }

  lemma DrainFramesAre(kinds: string -> string, w: World, t: string, lookup: Lookup, ok: bool)
    requires TaskInv(kinds, w, t) && t in w.hub.cursors
    ensures DrainFrames(kinds, w, t, lookup, ok)
         == if Reads(w, t, lookup, ok) then Frames(t, kinds(t), Records(kinds(t), Log(w, t)), w.hub.cursors[t].seen)
            else []
  {
  }

  lemma DrainLosesIff(kinds: string -> string, w: World, t: string, lookup: Lookup, ok: bool)
    requires t in w.hub.cursors
    ensures t !in Next(kinds, w, Drain(t, lookup, ok)).hub.cursors
      <==> w.hub.cursors[t].kind == "" && lookup == NotFound
  {
  }

  /** A drain of a tracked task catches up: when its kind is known or found and the read goes
      well, every record of its log has been fanned, and otherwise nothing new has. It loses
      its cursor exactly when its kind is not known and it is missing from the manager. */
  lemma DrainCatchesUp(kinds: string -> string, w: World, t: string, lookup: Lookup, ok: bool)
    requires TaskInv(kinds, w, t) && t in w.hub.cursors
    ensures var records := Records(kinds(t), Log(w, t));
      OfTask(t, Next(kinds, w, Drain(t, lookup, ok)).hub.fanned)
      == if Reads(w, t, lookup, ok) then FirstFrames(t, kinds(t), Log(w, t), |records|) else OfTask(t, w.hub.fanned)
    ensures t !in Next(kinds, w, Drain(t, lookup, ok)).hub.cursors
      <==> w.hub.cursors[t].kind == "" && lookup == NotFound
  {
    DrainLosesIff(kinds, w, t, lookup, ok);
    var before := OfTask(t, w.hub.fanned);
    assert OfTask(t, Next(kinds, w, Drain(t, lookup, ok)).hub.fanned) == before + DrainFrames(kinds, w, t, lookup, ok)
    by { DrainAdds(kinds, w, t, lookup, ok); }
    DrainFramesAre(kinds, w, t, lookup, ok);
    assert before + [] == before;
    assert before == FirstFrames(t, kinds(t), Log(w, t), w.hub.cursors[t].seen);
    FirstThenRest(t, kinds(t), Log(w, t), w.hub.cursors[t].seen);
  }

  /** The cursor a terminal notification works with, and the kind it settles on. */
  function EndCursor(w: World, u: string): Cursor {
    if u in w.hub.cursors then w.hub.cursors[u] else Cursor("", 0)
  }

  function EndKind(kinds: string -> string, w: World, u: string, lookup: Lookup): string {
    var c := EndCursor(w, u);
    if c.kind != "" then c.kind else if lookup == Found then kinds(u) else ""
  }

  function EndFrames(kinds: string -> string, w: World, u: string, lookup: Lookup, ok: bool): seq<Frame> {
    var k := EndKind(kinds, w, u, lookup);
    if ok then Frames(u, k, Records(k, Log(w, u)), EndCursor(w, u).seen) else []
  }

  lemma TerminalAdds(kinds: string -> string, w: World, u: string, lookup: Lookup, outcome: Outcome, ok: bool)
    ensures var w' := Next(kinds, w, Terminal(u, lookup, outcome, ok));
            var end := [TerminalFrame(u, EndKind(kinds, w, u, lookup), outcome)];
            OfTask(u, w'.hub.fanned) == OfTask(u, w.hub.fanned) + EndFrames(kinds, w, u, lookup, ok) + end
            && forall t :: t != u ==> OfTask(t, w'.hub.fanned) == OfTask(t, w.hub.fanned)
  {
    var rest := EndFrames(kinds, w, u, lookup, ok);
    var end := [TerminalFrame(u, EndKind(kinds, w, u, lookup), outcome)];
    Regroup(w.hub.fanned, rest, end);
    FannedFor(u, w.hub.fanned, rest + end);
    Regroup(OfTask(u, w.hub.fanned), rest, end);
  }

  /** A task's terminal notification ends it; with the final read done, after all the
      records its log holds. */
  lemma TerminalEnds(kinds: string -> string, w: World, u: string, lookup: Lookup, outcome: Outcome, ok: bool)
    requires TaskInv(kinds, w, u) && u !in w.hub.done
    ensures var w' := Next(kinds, w, Terminal(u, lookup, outcome, ok));
            var k := EndKind(kinds, w, u, lookup);
            var n := if ok then |Records(k, Log(w, u))| else EndCursor(w, u).seen;
            Finished(w', u, k, n, outcome) && TaskInv(kinds, w', u)
  {
    var w' := Next(kinds, w, Terminal(u, lookup, outcome, ok));
    var k, c := EndKind(kinds, w, u, lookup), EndCursor(w, u);
    TerminalAdds(kinds, w, u, lookup, outcome, ok);
    assert Log(w', u) == Log(w, u);
    assert c.seen > 0 ==> k == kinds(u);
    assert c.seen <= |Records(k, Log(w, u))|;
    assert OfTask(u, w.hub.fanned) == FirstFrames(u, k, Log(w, u), c.seen);
    if ok {
      FirstThenRest(u, k, Log(w, u), c.seen);
      assert Finished(w', u, k, |Records(k, Log(w, u))|, outcome);
    } else {
      assert OfTask(u, w.hub.fanned) + [] == OfTask(u, w.hub.fanned);
      assert Finished(w', u, k, c.seen, outcome);
    }
  }

  /** The frames a step fans. */
  function Adds(kinds: string -> string, w: World, step: Step): seq<Frame> {
    match step
    case Drain(u, lookup, ok) => DrainFrames(kinds, w, u, lookup, ok)
    case Terminal(u, lookup, outcome, ok) =>
      EndFrames(kinds, w, u, lookup, ok) + [TerminalFrame(u, EndKind(kinds, w, u, lookup), outcome)]
    case _ => []
  }

  /** The step may fan frames of this task. */
  predicate Concerns(step: Step, t: string) {
    (step.Drain? || step.Terminal?) && step.t == t
  }

  lemma StepFans(kinds: string -> string, w: World, step: Step)
    ensures Next(kinds, w, step).hub.fanned == w.hub.fanned + Adds(kinds, w, step)
    ensures forall i :: 0 <= i < |Adds(kinds, w, step)| ==>
              Concerns(step, Adds(kinds, w, step)[i].taskId)
  {
    match step
    case Drain(u, lookup, ok) => DrainAdds(kinds, w, u, lookup, ok);
    case Terminal(u, lookup, outcome, ok) =>
      var end := [TerminalFrame(u, EndKind(kinds, w, u, lookup), outcome)];
      Regroup(w.hub.fanned, EndFrames(kinds, w, u, lookup, ok), end);
    case _ =>
  }

  lemma StepAdds(kinds: string -> string, w: World, step: Step, t: string)
    ensures Next(kinds, w, step).hub.fanned == w.hub.fanned + Adds(kinds, w, step)
    ensures OfTask(t, Next(kinds, w, step).hub.fanned)
         == OfTask(t, w.hub.fanned) + if Concerns(step, t) then Adds(kinds, w, step) else []
  {
    StepFans(kinds, w, step);
    if step.Drain? || step.Terminal? {
      FannedFor(step.t, w.hub.fanned, Adds(kinds, w, step));
    }
    assert OfTask(t, w.hub.fanned) + [] == OfTask(t, w.hub.fanned);
  }

  lemma OrderlyKeeps(kinds: string -> string, w: World, step: Step, t: string)
    requires Inv(kinds, w) && Orderly(w, step)
    ensures TaskInv(kinds, Next(kinds, w, step), t)
  {
    var w' := Next(kinds, w, step);
    assert TaskInv(kinds, w, t);
    match step
    case Append(u, e) => AppendKeeps(kinds, w, u, e, t);
    case Track(u) => if u != t || t in w.hub.cursors { OthersUntouched(kinds, w, w', t); }
    case Drain(u, lookup, ok) =>
      assert TaskInv(kinds, w, u);
      DrainKeeps(kinds, w, u, lookup, ok, t);
    case Terminal(u, lookup, outcome, ok) =>
      if u == t {
        TerminalEnds(kinds, w, u, lookup, outcome, ok);
      } else {
        TerminalAdds(kinds, w, u, lookup, outcome, ok);
        OthersUntouched(kinds, w, w', t);
      }
    case _ => OthersUntouched(kinds, w, w', t);
  }

  /** Frames that are a task's first records in order, with or without its terminal frame. */
  ghost predicate FramesRight(w: World, t: string) {
    (exists k: string, n: nat :: Beginning(w, t, k, n))
    || exists k: string, n: nat, outcome: Outcome :: Finished(w, t, k, n, outcome)
  }

  ghost predicate Beginning(w: World, t: string, k: string, n: nat) {
    n <= |Records(k, Log(w, t))| && OfTask(t, w.hub.fanned) == FirstFrames(t, k, Log(w, t), n)
  }

  /** Of frames that are right only the last can be a terminal one. */
  lemma RecordsBeforeTheEnd(w: World, t: string, j: nat)
    requires FramesRight(w, t) && j + 1 < |OfTask(t, w.hub.fanned)|
    ensures OfTask(t, w.hub.fanned)[j].RecordFrame?
  {
    if k: string, n: nat :| Beginning(w, t, k, n) {
      assert FirstFrames(t, k, Log(w, t), n)[j].RecordFrame?;
    } else {
      var k: string, n: nat, outcome: Outcome :| Finished(w, t, k, n, outcome);
      assert FirstFrames(t, k, Log(w, t), n)[j].RecordFrame?;
    }
  }

  lemma DisorderlyBreaks(kinds: string -> string, w: World, step: Step)
    requires Inv(kinds, w) && !Orderly(w, step)
    ensures !TaskInv(kinds, Next(kinds, w, step), step.t)
  {
    var t, w' := step.t, Next(kinds, w, step);
    assert TaskInv(kinds, w, t);
    if step.Terminal? {
      var k: string, n: nat, outcome: Outcome :| Finished(w, t, k, n, outcome);
      var before := OfTask(t, w.hub.fanned);
      StepAdds(kinds, w, step, t);
      assert OfTask(t, w'.hub.fanned)[|before| - 1] == before[|before| - 1];
      if FramesRight(w', t) { RecordsBeforeTheEnd(w', t, |before| - 1); }
    } else if step.Drain? {
      StepAdds(kinds, w, step, t);
      assert |OfTask(t, w.hub.fanned)| == w.hub.cursors[t].seen;
    }
  }

  /** From a state that meets the invariant, exactly the orderly steps keep it. */
  lemma StepKeepsIff(kinds: string -> string, w: World, step: Step)
    requires Inv(kinds, w)
    ensures Inv(kinds, Next(kinds, w, step)) <==> Orderly(w, step)
  {
    if Orderly(w, step) {
      forall t ensures TaskInv(kinds, Next(kinds, w, step), t) { OrderlyKeeps(kinds, w, step, t); }
    } else {
      DisorderlyBreaks(kinds, w, step);
    }
  }

  function Run(kinds: string -> string, w: World, steps: seq<Step>): World
    decreases |steps|
  {
    if steps == [] then w else Run(kinds, Next(kinds, w, steps[0]), steps[1..])
  }

  predicate OrderlyRun(kinds: string -> string, w: World, steps: seq<Step>)
    decreases |steps|
  {
    steps == [] || (Orderly(w, steps[0]) && OrderlyRun(kinds, Next(kinds, w, steps[0]), steps[1..]))
  }

  /** The invariant holds after each step of the run. */
  ghost predicate Throughout(kinds: string -> string, w: World, steps: seq<Step>)
    decreases |steps|
  {
    Inv(kinds, w) && (steps == [] || Throughout(kinds, Next(kinds, w, steps[0]), steps[1..]))
  }

  lemma {:induction false} ThroughoutIff(kinds: string -> string, w: World, steps: seq<Step>)
    requires Inv(kinds, w)
    ensures Throughout(kinds, w, steps) <==> OrderlyRun(kinds, w, steps)
    ensures Throughout(kinds, w, steps) ==> Inv(kinds, Run(kinds, w, steps))
    decreases |steps|
  {
    if steps != [] {
      StepKeepsIff(kinds, w, steps[0]);
      if Orderly(w, steps[0]) { ThroughoutIff(kinds, Next(kinds, w, steps[0]), steps[1..]); }
    }
  }

  /** The main result, for every interleaving in which each notification is handled once,
      whatever lookups and reads fail on the way: a task's frames are its first records in
      order, each once, and, once it has ended, one terminal frame after them and nothing more.
      In every other interleaving some step breaks that. */
  lemma EveryInterleaving(kinds: string -> string, steps: seq<Step>, t: string)
    ensures Throughout(kinds, INITIAL, steps) <==> OrderlyRun(kinds, INITIAL, steps)
    ensures OrderlyRun(kinds, INITIAL, steps) ==> TaskInv(kinds, Run(kinds, INITIAL, steps), t)
  {
    ThroughoutIff(kinds, INITIAL, steps);
  }

  // ---------------------------------------------------------------- behind the end of a task

  /** No step of the run fans a frame of the task. */
  predicate Quiet(kinds: string -> string, w: World, steps: seq<Step>, t: string)
    decreases |steps|
  {
    steps == []
    || (!(Concerns(steps[0], t) && Adds(kinds, w, steps[0]) != [])
        && Quiet(kinds, Next(kinds, w, steps[0]), steps[1..], t))
  }

  lemma {:induction false} RunAdds(kinds: string -> string, w: World, steps: seq<Step>, t: string)
      returns (frames: seq<Frame>)
    ensures OfTask(t, Run(kinds, w, steps).hub.fanned) == OfTask(t, w.hub.fanned) + frames
    ensures frames == [] <==> Quiet(kinds, w, steps, t)
    decreases |steps|
  {
    frames := [];
    if steps != [] {
      var own := if Concerns(steps[0], t) then Adds(kinds, w, steps[0]) else [];
      StepAdds(kinds, w, steps[0], t);
      frames := RunAdds(kinds, Next(kinds, w, steps[0]), steps[1..], t);
      Regroup(OfTask(t, w.hub.fanned), own, frames);
      frames := own + frames;
    }
  }

  lemma StepAppends(kinds: string -> string, w: World, step: Step, t: string)
    ensures Log(Next(kinds, w, step), t) == Log(w, t) + if step.Append? && step.t == t then [step.event] else []
  {
  }

  lemma {:induction false} RunAppends(kinds: string -> string, w: World, steps: seq<Step>, t: string)
      returns (events: seq<Event>)
    ensures Log(Run(kinds, w, steps), t) == Log(w, t) + events
    decreases |steps|
  {
    events := [];
    if steps != [] {
      var event := if steps[0].Append? && steps[0].t == t then [steps[0].event] else [];
      StepAppends(kinds, w, steps[0], t);
      events := RunAppends(kinds, Next(kinds, w, steps[0]), steps[1..], t);
      Regroup(Log(w, t), event, events);
      events := event + events;
    }
  }

  lemma FinishedStays(w: World, w': World, t: string, k: string, n: nat, outcome: Outcome,
                      more: seq<Event>)
    requires Finished(w, t, k, n, outcome)
    requires Log(w', t) == Log(w, t) + more && OfTask(t, w'.hub.fanned) == OfTask(t, w.hub.fanned)
    ensures Finished(w', t, k, n, outcome)
  {
    RecordsAppend(k, Log(w, t), more);
    assert Records(k, Log(w', t))[..n] == Records(k, Log(w, t))[..n];
  }

  /** Whatever happens behind a task's terminal frame, handled once or again: its frames stay
      right exactly as long as nothing more is fanned for it. */
  lemma EndedStaysRightIff(kinds: string -> string, w: World, steps: seq<Step>, t: string)
    requires TaskInv(kinds, w, t) && t in w.hub.done
    ensures FramesRight(Run(kinds, w, steps), t) <==> Quiet(kinds, w, steps, t)
  {
    var w' := Run(kinds, w, steps);
    var k: string, n: nat, outcome: Outcome :| Finished(w, t, k, n, outcome);
    var frames := RunAdds(kinds, w, steps, t);
    var events := RunAppends(kinds, w, steps, t);
    if frames == [] {
      FinishedStays(w, w', t, k, n, outcome, events);
    } else {
      if FramesRight(w', t) { RecordsBeforeTheEnd(w', t, n); }
    }
  }

  lemma EndedAddsNothing(kinds: string -> string, w: World, step: Step, t: string)
    requires TaskInv(kinds, w, t) && Orderly(w, step) && t in w.hub.done
    ensures t in Next(kinds, w, step).hub.done && (Concerns(step, t) ==> Adds(kinds, w, step) == [])
  {
  }

  /** When every notification is handled once, an ended task is silent for good. */
  lemma {:induction false} EndedIsSilent(kinds: string -> string, w: World, steps: seq<Step>, t: string)
    requires Inv(kinds, w) && OrderlyRun(kinds, w, steps) && t in w.hub.done
    ensures Quiet(kinds, w, steps, t)
    decreases |steps|
  {
    if steps != [] {
      assert TaskInv(kinds, w, t);
      EndedAddsNothing(kinds, w, steps[0], t);
      StepKeepsIff(kinds, w, steps[0]);
      EndedIsSilent(kinds, Next(kinds, w, steps[0]), steps[1..], t);
    }
  }

  /** A task_created notification handled again behind the terminal one registers the task at
      record 0: the next drain fans everything once more, from the first record on. */
  lemma RedeliveryRepeats(kinds: string -> string, w: World, t: string)
    requires TaskInv(kinds, w, t) && t in w.hub.done
    ensures var steps := [Track(t), Drain(t, Found, true)];
      var all := Records(kinds(t), Log(w, t));
      OfTask(t, Run(kinds, w, steps).hub.fanned)
      == OfTask(t, w.hub.fanned) + FirstFrames(t, kinds(t), Log(w, t), |all|)
      && (FramesRight(Run(kinds, w, steps), t) <==> all == [])
  {
    var steps := [Track(t), Drain(t, Found, true)];
    var all, w1 := Records(kinds(t), Log(w, t)), Next(kinds, w, steps[0]);
    var w2 := Next(kinds, w1, steps[1]);
    assert steps[1..][0] == steps[1] && steps[1..][1..] == [];
    assert Run(kinds, w, steps) == Run(kinds, w1, steps[1..]) == w2;
    assert Log(w1, t) == Log(w, t) && all[..|all|] == all;
    StepAdds(kinds, w, steps[0], t);
    StepAdds(kinds, w1, steps[1], t);
    assert Adds(kinds, w1, steps[1]) == FirstFrames(t, kinds(t), Log(w, t), |all|);
    EndedStaysRightIff(kinds, w, steps, t);
    assert Quiet(kinds, w2, [], t);
    assert Quiet(kinds, w1, steps[1..], t) <==> Adds(kinds, w1, steps[1]) == [];
  }

  // ---------------------------------------------------------------- what a subscriber gets

  lemma {:induction false} FedFaithfully(h: History<Frame>, frames: seq<Frame>)
    requires Faithful(h) && !h.stream.closed
    ensures var r := Streams.Run(h, Sends(frames));
      Faithful(r) && !r.stream.closed && r.offered == h.offered + frames && r.stream == SentAll(h.stream, frames)
    decreases |frames|
  {
    if frames == [] {
      assert h.offered + [] == h.offered;
    } else {
      var op: Op<Frame> := Op.Send(frames[0]);
      assert Sends(frames)[0] == op && Sends(frames)[1..] == Sends(frames[1..]);
      StepIsFaithful(h, op);
      FedFaithfully(Streams.Step(h, op), frames[1..]);
      Regroup(h.offered, [frames[0]], frames[1..]);
      assert [frames[0]] + frames[1..] == frames;
    }
  }

  function End(tap: Tap, fanned: nat): nat {
    if tap.until.Some? then tap.until.value else fanned
  }

  /** The stream was offered exactly what was fanned between its attachment and its
      detachment, and has kept that as a bounded stream does. */
  ghost predicate TapInv(tap: Tap, fanned: seq<Frame>) {
    tap.from <= End(tap, |fanned|) <= |fanned|
    && tap.history.offered == fanned[tap.from..End(tap, |fanned|)]
    && Faithful(tap.history) && (tap.history.stream.closed ==> tap.until.Some?)
  }

  ghost predicate TapsInv(w: World) {
    forall id :: id in w.taps ==> TapInv(w.taps[id], w.hub.fanned)
  }

  lemma SliceOfMore<T>(a: seq<T>, b: seq<T>, i: nat, j: nat)
    requires i <= j <= |a|
    ensures (a + b)[i..j] == a[i..j] && (a + b)[i..|a + b|] == a[i..|a|] + b
  {
  }

  lemma FedKeeps(tap: Tap, fanned: seq<Frame>, more: seq<Frame>)
    requires TapInv(tap, fanned)
    ensures TapInv(Fed(tap, more), fanned + more)
  {
    SliceOfMore(fanned, more, tap.from, End(tap, |fanned|));
    if tap.until.None? {
      FedFaithfully(tap.history, more);
    }
  }

  lemma DetachedKeeps(tap: Tap, fanned: seq<Frame>)
    requires TapInv(tap, fanned)
    ensures TapInv(Detached(tap, |fanned|), fanned)
  {
  }

  lemma TapKept(tap: Tap, fanned: seq<Frame>, more: seq<Frame>)
    requires TapInv(tap, fanned)
    ensures TapInv(Fed(tap, more), fanned + more) && TapInv(Detached(tap, |fanned|), fanned)
    ensures TapInv(tap.(history := Streams.Step(tap.history, Recv)), fanned)
    ensures tap.until.Some? ==> TapInv(tap.(history := Streams.Step(tap.history, Close)), fanned)
  {
    FedKeeps(tap, fanned, more);
    DetachedKeeps(tap, fanned);
    StepIsFaithful(tap.history, Recv);
    StepIsFaithful(tap.history, Close);
  }

  lemma TapStep(kinds: string -> string, w: World, step: Step, id: nat)
    requires id in w.taps && TapInv(w.taps[id], w.hub.fanned)
    ensures var w' := Next(kinds, w, step); id in w'.taps && TapInv(w'.taps[id], w'.hub.fanned)
  {
    var more := Adds(kinds, w, step);
    StepAdds(kinds, w, step, "");
    assert (w.hub.fanned + more)[|w.hub.fanned|..] == more;
    TapKept(w.taps[id], w.hub.fanned, more);
  }

  lemma NewTap(kinds: string -> string, w: World, step: Step, id: nat)
    requires id !in w.taps && id in Next(kinds, w, step).taps
    ensures var w' := Next(kinds, w, step); TapInv(w'.taps[id], w'.hub.fanned)
  {
    var n := |w.hub.fanned|;
    assert w.hub.fanned[n..n] == [];
  }

  lemma TapsKept(kinds: string -> string, w: World, step: Step)
    requires TapsInv(w)
    ensures TapsInv(Next(kinds, w, step))
  {
    var w' := Next(kinds, w, step);
    forall id | id in w'.taps ensures TapInv(w'.taps[id], w'.hub.fanned) {
      if id in w.taps { TapStep(kinds, w, step, id); } else { NewTap(kinds, w, step, id); }
    }
  }

  lemma {:induction false} TapsKeptThroughout(kinds: string -> string, w: World, steps: seq<Step>)
    requires TapsInv(w)
    ensures TapsInv(Run(kinds, w, steps))
    decreases |steps|
  {
    if steps != [] {
      TapsKept(kinds, w, steps[0]);
      TapsKeptThroughout(kinds, Next(kinds, w, steps[0]), steps[1..]);
    }
  }

  lemma TaskSlice(t: string, fanned: seq<Frame>, a: nat, b: nat)
    requires a <= b <= |fanned|
    ensures var p, q := |OfTask(t, fanned[..a])|, |OfTask(t, fanned[..b])|;
      p <= q <= |OfTask(t, fanned)| && OfTask(t, fanned[a..b]) == OfTask(t, fanned)[p..q]
  {
    assert fanned == fanned[..b] + fanned[b..] && fanned[..b] == fanned[..a] + fanned[a..b];
    OfTaskAppend(t, fanned[..b], fanned[b..]);
    OfTaskAppend(t, fanned[..a], fanned[a..b]);
  }

  /** Every subscriber, in every interleaving whatever: its stream is offered exactly the frames
      fanned while it was attached. So one that never dropped a frame has received, for each
      task, a run of consecutive frames of that task, in order and each once. */
  lemma EverySubscriber(kinds: string -> string, steps: seq<Step>, id: nat, t: string)
    requires id in Run(kinds, INITIAL, steps).taps
    ensures var w := Run(kinds, INITIAL, steps);
      var tap, h := w.taps[id], w.taps[id].history;
      TapInv(tap, w.hub.fanned)
      && (h.stream.drops == 0 ==>
            var p := |OfTask(t, w.hub.fanned[..tap.from])|;
            var q := |OfTask(t, w.hub.fanned[..End(tap, |w.hub.fanned|)])|;
            p <= q <= |OfTask(t, w.hub.fanned)|
            && OfTask(t, h.read + h.stream.buffer) == OfTask(t, w.hub.fanned)[p..q])
  {
    var w := Run(kinds, INITIAL, steps);
    TapsKeptThroughout(kinds, INITIAL, steps);
    TaskSlice(t, w.hub.fanned, w.taps[id].from, End(w.taps[id], |w.hub.fanned|));
  }
}
