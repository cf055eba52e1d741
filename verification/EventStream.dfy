/** The bounded, drop-new view of a run that live subscribers read from. Transcript
    streams and task-progress streams share it. */
module EventStream {
  import opened Sequences

  /** A stream's state: what its channel holds, whether it is closed, and how many sends a
      full channel refused. */
  datatype Stream<T> = Stream(capacity: nat, buffer: seq<T>, closed: bool, drops: nat)

  function Sent<T>(s: Stream<T>, x: T): Stream<T> {
    if s.closed then s
    else if |s.buffer| < s.capacity then s.(buffer := s.buffer + [x])
    else s.(drops := s.drops + 1)
  }

  function SentAll<T>(s: Stream<T>, xs: seq<T>): Stream<T>
    decreases |xs|
  {
    if xs == [] then s else SentAll(Sent(s, xs[0]), xs[1..])
  }

  lemma {:induction false} SentAllOneMore<T>(s: Stream<T>, xs: seq<T>, x: T)
    ensures SentAll(s, xs + [x]) == Sent(SentAll(s, xs), x)
    decreases |xs|
  {
    if xs == [] {
      assert ([] + [x])[1..] == [];
    } else {
      assert (xs + [x])[1..] == xs[1..] + [x];
      SentAllOneMore(Sent(s, xs[0]), xs[1..], x);
    }
  }

  /** A receive: an item, the end of the stream, or a wait on an open empty channel. */
  datatype Received<T> = Item(x: T) | Eof | Wait

  class EventStream<T> {
    const capacity: nat
    var events: seq<T>
    var closed: bool
    var drops: nat

    function View(): Stream<T>
      reads this
    {
      Stream(capacity, events, closed, drops)
    }

    constructor (bufferSize: int)
      ensures View() == Stream(if bufferSize < 1 then 64 else bufferSize, [], false, 0)
    {
      capacity := if bufferSize < 1 then 64 else bufferSize;
      events, closed, drops := [], false, 0;
    }

    method Send(x: T) returns (accepted: bool)
      modifies this
      ensures View() == Sent(old(View()), x)
      ensures accepted <==> !old(closed) && |old(events)| < capacity
    {
      if closed {
        return false;
      }
      if |events| < capacity {
        events := events + [x];
        return true;
      }
      drops := drops + 1;
      accepted := false;
    }

    method Recv() returns (r: Received<T>)
      modifies this
      ensures old(events) != [] ==> r == Item(old(events)[0]) && View() == old(View()).(buffer := old(events)[1..])
      ensures old(events) == [] ==> r == (if closed then Eof else Wait) && View() == old(View())
    {
      if |events| > 0 {
        r := Item(events[0]);
        events := events[1..];
      } else {
        r := if closed then Eof else Wait;
      }
    }

    method Close()
      modifies this
      ensures View() == old(View()).(closed := true)
    {
      if !closed {
        closed := true;
      }
    }
  }

  // ---------------------------------------------------------------- whole runs of a stream

  datatype Op<T> = Send(x: T) | Recv | Close

  /** A stream with what was sent to it while it was open and what was read from it. */
  datatype History<T> = History(stream: Stream<T>, offered: seq<T>, read: seq<T>)

  function Step<T>(h: History<T>, op: Op<T>): History<T> {
    match op
    case Send(x) =>
      History(Sent(h.stream, x), if h.stream.closed then h.offered else h.offered + [x], h.read)
    case Recv =>
      if h.stream.buffer == [] then h
      else History(h.stream.(buffer := h.stream.buffer[1..]), h.offered, h.read + [h.stream.buffer[0]])
    case Close => h.(stream := h.stream.(closed := true))
  }

  function Run<T>(h: History<T>, ops: seq<Op<T>>): History<T>
    decreases |ops|
  {
    if ops == [] then h else Run(Step(h, ops[0]), ops[1..])
  }

  /** a is b with some elements left out. */
  predicate Subsequence<T(==)>(a: seq<T>, b: seq<T>)
    decreases |b|
  {
    a == [] || (b != [] &&
      ((a[|a| - 1] == b[|b| - 1] && Subsequence(a[..|a| - 1], b[..|b| - 1])) || Subsequence(a, b[..|b| - 1])))
  }

  lemma SubsequenceGrows<T>(a: seq<T>, b: seq<T>, x: T)
    requires Subsequence(a, b)
    ensures Subsequence(a + [x], b + [x]) && Subsequence(a, b + [x])
  {
    assert (a + [x])[..|a|] == a && (b + [x])[..|b|] == b;
  }

  /** Nothing is reordered, repeated or made up; what is missing is counted; and a reader
      that never let the channel fill up has lost nothing. */
  ghost predicate Faithful<T>(h: History<T>) {
    var accepted := h.read + h.stream.buffer;
    |h.stream.buffer| <= h.stream.capacity
    && Subsequence(accepted, h.offered)
    && |accepted| + h.stream.drops == |h.offered|
    && (h.stream.drops == 0 ==> accepted == h.offered)
  }

  lemma StepIsFaithful<T>(h: History<T>, op: Op<T>)
    requires Faithful(h)
    ensures Faithful(Step(h, op))
    ensures h.stream.closed ==> Step(h, op).stream.closed && Step(h, op).offered == h.offered
  {
    var accepted := h.read + h.stream.buffer;
    match op
    case Send(x) =>
      SubsequenceGrows(accepted, h.offered, x);
      assert h.read + (h.stream.buffer + [x]) == accepted + [x];
    case Recv =>
      if h.stream.buffer != [] {
        assert h.read + [h.stream.buffer[0]] + h.stream.buffer[1..] == accepted;
      }
    case Close =>
  }

  /** Over every sequence of sends, receives and closes on a new stream. */
  lemma {:induction false} RunsAreFaithful<T>(h: History<T>, ops: seq<Op<T>>)
    requires Faithful(h)
    ensures Faithful(Run(h, ops))
    ensures h.stream.closed ==> Run(h, ops).stream.closed && Run(h, ops).offered == h.offered
    decreases |ops|
  {
    if ops != [] {
      StepIsFaithful(h, ops[0]);
      RunsAreFaithful(Step(h, ops[0]), ops[1..]);
    }
  }

  function Receives<T>(n: nat): seq<Op<T>> {
    seq(n, _ => Recv)
  }

  /** A closed stream drains to its end: as many receives as it holds items return exactly
      those, and nothing is left. */
  lemma {:induction false} ClosedDrains<T>(h: History<T>)
    requires h.stream.closed
    ensures Run(h, Receives(|h.stream.buffer|)) ==
            History(h.stream.(buffer := []), h.offered, h.read + h.stream.buffer)
    decreases |h.stream.buffer|
  {
    var n := |h.stream.buffer|;
    if n > 0 {
      assert Receives<T>(n)[1..] == Receives<T>(n - 1);
      ClosedDrains(Step(h, Recv));
      assert h.read + [h.stream.buffer[0]] + h.stream.buffer[1..] == h.read + h.stream.buffer;
    }
  }
}
