/** The model's message window, rebuilt from the session log: it restarts at the latest
    replacement and every later message is appended. */
module SessionWindow {
  import opened Sequences

  /** A session event as the window sees it; both parts may be absent. `Missing` is a nil
      event. */
  datatype Event<M> = Missing | Event(replacement: Option<seq<M>>, message: Option<M>)

  predicate Replaces<M>(e: Event<M>) {
    e.Event? && e.replacement.Some?
  }

  function Appended<M>(e: Event<M>): seq<M> {
    if e.Event? && e.message.Some? then [e.message.value] else []
  }

  /** One event at a time: a replacement resets the window, a message extends it. */
  function Step<M>(window: seq<M>, e: Event<M>): seq<M> {
    if Replaces(e) then e.replacement.value else window + Appended(e)
  }

  function Fold<M>(window: seq<M>, log: seq<Event<M>>): seq<M>
    decreases |log|
  {
    if log == [] then window else Fold(Step(window, log[0]), log[1..])
  }

  lemma {:induction false} FoldAppend<M>(window: seq<M>, a: seq<Event<M>>, b: seq<Event<M>>)
    ensures Fold(window, a + b) == Fold(Fold(window, a), b)
    decreases |a|
  {
    if a == [] {
      assert a + b == b;
    } else {
      assert (a + b)[1..] == a[1..] + b;
      FoldAppend(Step(window, a[0]), a[1..], b);
    }
  }

  /** Whatever precedes a replacement is forgotten. */
  lemma SkipTo<M>(window: seq<M>, log: seq<Event<M>>, i: nat)
    requires i < |log| && Replaces(log[i])
    ensures Fold(window, log) == Fold(log[i].replacement.value, log[i + 1..])
  {
    assert log == log[..i] + log[i..];
    FoldAppend(window, log[..i], log[i..]);
    assert log[i..][0] == log[i] && log[i..][1..] == log[i + 1..];
  }

  method AppendMessages<M>(replacement: seq<M>, events: seq<Event<M>>) returns (window: seq<M>)
    requires forall j :: 0 <= j < |events| ==> !Replaces(events[j])
    ensures window == Fold(replacement, events)
  {
    window := replacement;
    for i := 0 to |events|
      invariant Fold(window, events[i..]) == Fold(replacement, events)
    {
      assert events[i..][0] == events[i] && events[i..][1..] == events[i + 1..];
      if events[i].Missing? || events[i].message.None? {
        assert window + [] == window;
        continue;
      }
      window := window + [events[i].message.value];
    }
    assert events[|events|..] == [];
  }

  /** Two passes, the first looking for the last replacement, give what one fold gives. */
  method LoadSessionWindow<M>(log: seq<Event<M>>) returns (window: seq<M>)
    ensures window == Fold([], log)
  {
    window := [];
    var start := 0;
    for i := 0 to |log|
      invariant 0 <= start <= i
      invariant Fold(window, log[start..]) == Fold([], log)
      invariant forall j :: start <= j < i ==> !Replaces(log[j])
    {
      if Replaces(log[i]) {
        var rest := log[start..];
        assert rest[i - start] == log[i] && rest[i - start + 1..] == log[i + 1..];
        SkipTo(window, rest, i - start);
        window := log[i].replacement.value;
        start := i + 1;
      }
    }
    window := AppendMessages(window, log[start..]);
  }

  function MessageEvents<M>(ms: seq<M>): seq<Event<M>> {
    seq(|ms|, i requires 0 <= i < |ms| => Event(None, Some(ms[i])))
  }

  lemma {:induction false} FoldMessages<M>(window: seq<M>, ms: seq<M>)
    ensures Fold(window, MessageEvents(ms)) == window + ms
    decreases |ms|
  {
    if ms != [] {
      var events := MessageEvents(ms);
      assert events[1..] == MessageEvents(ms[1..]);
      FoldMessages(Step(window, events[0]), ms[1..]);
      assert window + ms == window + [ms[0]] + ms[1..];
    }
  }

  /** Behind a compaction record the window is its replacement and the messages since: the log
      before the record, whatever it holds, does not matter. */
  lemma WindowAfterCompaction<M>(log: seq<Event<M>>, replacement: seq<M>, ms: seq<M>)
    ensures Fold([], log + [Event(Some(replacement), None)] + MessageEvents(ms)) == replacement + ms
  {
    var record := Event(Some(replacement), None);
    FoldAppend([], log + [record], MessageEvents(ms));
    FoldAppend([], log, [record]);
    assert [record][1..] == [];
    assert Fold(Fold([], log), [record]) == replacement;
    FoldMessages(replacement, ms);
  }
}
