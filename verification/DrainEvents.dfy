/** The live side of a turn: the loop that turns the agent's event sequence into transcript
    events. Tool calls reach it on three lanes, text in streamed frames, and every turn ends in
    exactly one terminal event. */
module DrainEvents {
  import opened Sequences

  // ---------------------------------------------------------------- what comes in

  datatype Call = Call(id: string, name: string, args: string)

  datatype CallResult = CallResult(id: string, name: string, result: string)

  /** A streamed frame's own text, reasoning and tool calls; a nil frame has none. */
  datatype Frame = Frame(text: string, reasoning: string, calls: seq<Call>)

  /** How a model stream ends: at its end, torn down by an escalated abort, cut by the
      context, or failed. */
  datatype StreamEnd = Eof | Torn | ContextCut | StreamFailed(error: string)

  datatype Output =
    | NoOutput
    | Stream(frames: seq<Frame>, end: StreamEnd)
    | Whole(role: string, content: string, reasoning: string, calls: seq<Call>, results: seq<CallResult>)

  datatype Span = NoSpan | ToolStart(id: string, name: string) | ToolEnd(id: string, name: string) | Replaced

  datatype Failure = NoFailure | AgentCancelled | ContextCancelled | Failed(error: string)

  /** One agent event, with everything it may carry at once. `child` marks an event forwarded
      from a delegated run. */
  datatype AgentEvent = AgentEvent(child: bool, failure: Failure, interrupted: bool, output: Output, span: Span)

  // ---------------------------------------------------------------- what goes out

  /** `streamed` tells what comes from streamed frames, which the transcript event itself does
      not say. */
  datatype Event =
    | UserMessage(text: string)
    | TextDelta(text: string)
    | ReasoningDelta(streamed: bool, reasoning: string)
    | ToolCallStarted(id: string, name: string, args: string)
    | ToolCallFinished(id: string, name: string, result: string)
    | MessageCompleted(streamed: bool, role: string, content: string, reasoning: string)
    | ContextCompacted
    | Cancelled(reason: string)
    | ApprovalRequired
    | Error(message: string)
    | TurnCompleted

  predicate Terminal(e: Event) {
    e.Cancelled? || e.ApprovalRequired? || e.Error? || e.TurnCompleted?
  }

  // ---------------------------------------------------------------- the loop as a function

  /** The loop's variables: the text and reasoning of the message being streamed, the calls
      started and finished, and the latest arguments seen of each. */
  datatype State = State(
    events: seq<Event>, text: string, reasoning: string,
    started: set<string>, finished: set<string>, args: map<string, string>)

  function Emit(s: State, e: Event): (next: State)
    ensures s.events <= next.events
  {
    s.(events := s.events + [e])
  }

  function Start(s: State, id: string, name: string, args: string): (next: State)
    ensures s.events <= next.events
  {
    if id == "" || id in s.started then s
    else Emit(s, ToolCallStarted(id, name, args)).(started := s.started + {id})
  }

  function Finish(s: State, r: CallResult): (next: State)
    ensures s.events <= next.events
  {
    if r.id == "" || r.id in s.finished then s
    else Emit(s, ToolCallFinished(r.id, r.name, r.result)).(finished := s.finished + {r.id})
  }

  function Calls(s: State, calls: seq<Call>): (next: State)
    ensures s.events <= next.events
    decreases |calls|
  {
    if calls == [] then s
    else
      var c := calls[0];
      var noted := if c.args != "" then s.(args := s.args[c.id := c.args]) else s;
      Calls(Start(noted, c.id, c.name, c.args), calls[1..])
  }

  function Results(s: State, results: seq<CallResult>): (next: State)
    ensures s.events <= next.events
    decreases |results|
  {
    if results == [] then s else Results(Finish(s, results[0]), results[1..])
  }

  function TextStep(s: State, text: string): (next: State)
    ensures s.events <= next.events
  {
    if text == "" then s else Emit(s, TextDelta(text)).(text := s.text + text)
  }

  function ReasoningStep(s: State, reasoning: string): (next: State)
    ensures s.events <= next.events
  {
    if reasoning == "" then s else Emit(s, ReasoningDelta(true, reasoning)).(reasoning := s.reasoning + reasoning)
  }

  function FrameStep(s: State, f: Frame): (next: State)
    ensures s.events <= next.events
  {
    Calls(ReasoningStep(TextStep(s, f.text), f.reasoning), f.calls)
  }

  function Frames(s: State, frames: seq<Frame>): (next: State)
    ensures s.events <= next.events
    decreases |frames|
  {
    if frames == [] then s else Frames(FrameStep(s, frames[0]), frames[1..])
  }

  /** The message streamed so far becomes one completed message; the reasoning is put down
      only together with a text. */
  function CompleteStreamed(s: State): (next: State)
    ensures s.events <= next.events
  {
    if s.text == "" then s
    else Emit(s, MessageCompleted(true, "assistant", s.text, s.reasoning)).(text := "", reasoning := "")
  }

  /** What the loop does after an event: goes on, has ended the turn, or leaves with an
      error. */
  datatype Flow = GoOn | Ended | Broke(error: string)

  function EndStream(s: State, end: StreamEnd): (State, Flow) {
    match end
    case Eof => (CompleteStreamed(s), GoOn)
    case Torn => (Emit(s, Cancelled("execution cancelled")), Ended)
    case ContextCut =>
      var marked := if s.text == "" then s else Emit(s, MessageCompleted(true, "assistant", s.text, ""));
      (Emit(marked, Cancelled("stream interrupted")), Ended)
    case StreamFailed(error) => (s, Broke(error))
  }

  function WholeMessage(s: State, m: Output): (next: State)
    requires m.Whole?
    ensures s.events <= next.events
  {
    var role := if m.role == "user" then "user" else if m.role == "tool" then "tool" else "assistant";
    var told := Results(Calls(s, m.calls), m.results);
    var reasoning := if role == "assistant" then m.reasoning else "";
    var thought := if reasoning == "" then told else Emit(told, ReasoningDelta(false, reasoning));
    if m.content == "" then thought else Emit(thought, MessageCompleted(false, role, m.content, reasoning))
  }

  function OutputStep(s: State, o: Output): (State, Flow) {
    match o
    case NoOutput => (s, GoOn)
    case Stream(frames, end) => EndStream(Frames(s, frames), end)
    case Whole(_, _, _, _, _) => (WholeMessage(s, o), GoOn)
  }

  /** A span that reports a finished call is passed on without looking at the calls finished
      already. */
  function SpanStep(s: State, span: Span): (next: State)
    ensures s.events <= next.events
  {
    match span
    case NoSpan => s
    case ToolStart(id, name) => Start(s, id, name, if id in s.args then s.args[id] else "")
    case ToolEnd(id, name) => Emit(s, ToolCallFinished(id, name, ""))
    case Replaced => Emit(s, ContextCompacted)
  }

  function EventStep(s: State, e: AgentEvent): (State, Flow) {
    if e.child then (s, GoOn)
    else
      match e.failure
      case AgentCancelled => (Emit(s, Cancelled("execution cancelled")), Ended)
      case ContextCancelled => (Emit(s, Cancelled("execution cancelled")), Ended)
      case Failed(error) => (s, Broke(error))
      case NoFailure =>
        if e.interrupted then (Emit(s, ApprovalRequired), Ended)
        else
          var (after, flow) := OutputStep(s, e.output);
          if flow != GoOn then (after, flow) else (SpanStep(after, e.span), GoOn)
  }

  function Drain(s: State, events: seq<AgentEvent>): State
    decreases |events|
  {
    if events == [] then Emit(s, TurnCompleted)
    else
      var (after, flow) := EventStep(s, events[0]);
      match flow
      case GoOn => Drain(after, events[1..])
      case Ended => after
      case Broke(error) => Emit(after, Error(error))
  }

  function Begin(userText: Option<string>, partialText: string): State {
    State(if userText.None? then [] else [UserMessage(userText.value)], partialText, "", {}, {}, map[])
  }

  // ---------------------------------------------------------------- the loop itself

  class TranscriptDrain {
    var events: seq<Event>
    var partialText: string
    var partialReasoning: string
    var startedTools: set<string>
    var finishedTools: set<string>
    var toolCallArgs: map<string, string>

    function Value(): State
      reads this
    {
      State(events, partialText, partialReasoning, startedTools, finishedTools, toolCallArgs)
    }

    constructor (userText: Option<string>, partial: string)
      ensures Value() == Begin(userText, partial)
    {
      events := if userText.None? then [] else [UserMessage(userText.value)];
      partialText, partialReasoning := partial, "";
      startedTools, finishedTools, toolCallArgs := {}, {}, map[];
    }

    method Send(e: Event)
      modifies this
      ensures Value() == Emit(old(Value()), e)
    {
      events := events + [e];
    }

    method EmitToolStarted(id: string, name: string, args: string)
      modifies this
      ensures Value() == Start(old(Value()), id, name, args)
    {
      if id == "" || id in startedTools {
        return;
      }
      startedTools := startedTools + {id};
      Send(ToolCallStarted(id, name, args));
    }

    method EmitToolFinished(r: CallResult)
      modifies this
      ensures Value() == Finish(old(Value()), r)
    {
      if r.id == "" || r.id in finishedTools {
        return;
      }
      finishedTools := finishedTools + {r.id};
      Send(ToolCallFinished(r.id, r.name, r.result));
    }

    method TakeCalls(calls: seq<Call>)
      modifies this
      ensures Value() == Calls(old(Value()), calls)
    {
      for i := 0 to |calls|
        invariant Calls(Value(), calls[i..]) == Calls(old(Value()), calls)
      {
        var c := calls[i];
        assert calls[i..][0] == c && calls[i..][1..] == calls[i + 1..];
        if c.args != "" {
          toolCallArgs := toolCallArgs[c.id := c.args];
        }
        EmitToolStarted(c.id, c.name, c.args);
      }
    }

    method TakeResults(results: seq<CallResult>)
      modifies this
      ensures Value() == Results(old(Value()), results)
    {
      for i := 0 to |results|
        invariant Results(Value(), results[i..]) == Results(old(Value()), results)
      {
        assert results[i..][0] == results[i] && results[i..][1..] == results[i + 1..];
        EmitToolFinished(results[i]);
      }
    }

    method TakeFrame(f: Frame)
      modifies this
      ensures Value() == FrameStep(old(Value()), f)
    {
      if f.text != "" {
        partialText := partialText + f.text;
        Send(TextDelta(f.text));
      }
      if f.reasoning != "" {
        partialReasoning := partialReasoning + f.reasoning;
        Send(ReasoningDelta(true, f.reasoning));
      }
      TakeCalls(f.calls);
    }

    method TakeStream(frames: seq<Frame>, end: StreamEnd) returns (flow: Flow)
      modifies this
      ensures (Value(), flow) == EndStream(Frames(old(Value()), frames), end)
    {
      for i := 0 to |frames|
        invariant Frames(Value(), frames[i..]) == Frames(old(Value()), frames)
      {
        assert frames[i..][0] == frames[i] && frames[i..][1..] == frames[i + 1..];
        TakeFrame(frames[i]);
      }
      match end {
        case Torn =>
          Send(Cancelled("execution cancelled"));
          return Ended;
        case ContextCut =>
          if partialText != "" {
            Send(MessageCompleted(true, "assistant", partialText, ""));
          }
          Send(Cancelled("stream interrupted"));
          return Ended;
        case StreamFailed(error) =>
          return Broke(error);
        case Eof =>
          if partialText != "" {
            Send(MessageCompleted(true, "assistant", partialText, partialReasoning));
            partialText, partialReasoning := "", "";
          }
          return GoOn;
      }
    }

    method TakeWhole(m: Output)
      requires m.Whole?
      modifies this
      ensures Value() == WholeMessage(old(Value()), m)
    {
      var role := if m.role == "user" then "user" else if m.role == "tool" then "tool" else "assistant";
      TakeCalls(m.calls);
      TakeResults(m.results);
      var reasoning := "";
      if role == "assistant" {
        reasoning := m.reasoning;
        if reasoning != "" {
          Send(ReasoningDelta(false, reasoning));
        }
      }
      if m.content != "" {
        Send(MessageCompleted(false, role, m.content, reasoning));
      }
    }

    method TakeEvent(e: AgentEvent) returns (flow: Flow)
      modifies this
      ensures (Value(), flow) == EventStep(old(Value()), e)
    {
      if e.child {
        return GoOn;
      }
      match e.failure {
        case AgentCancelled =>
          Send(Cancelled("execution cancelled"));
          return Ended;
        case ContextCancelled =>
          Send(Cancelled("execution cancelled"));
          return Ended;
        case Failed(error) =>
          return Broke(error);
        case NoFailure =>
      }
      if e.interrupted {
        Send(ApprovalRequired);
        return Ended;
      }
      match e.output {
        case NoOutput =>
        case Stream(frames, end) =>
          flow := TakeStream(frames, end);
          if flow != GoOn {
            return;
          }
        case Whole(_, _, _, _, _) =>
          TakeWhole(e.output);
      }
      match e.span {
        case NoSpan =>
        case ToolStart(id, name) => EmitToolStarted(id, name, if id in toolCallArgs then toolCallArgs[id] else "");
        case ToolEnd(id, name) => Send(ToolCallFinished(id, name, ""));
        case Replaced => Send(ContextCompacted);
      }
      flow := GoOn;
    }

    method DrainAgentEvents(incoming: seq<AgentEvent>)
      modifies this
      ensures Value() == Drain(old(Value()), incoming)
    {
      for i := 0 to |incoming|
        invariant Drain(Value(), incoming[i..]) == Drain(old(Value()), incoming)
      {
        assert incoming[i..][0] == incoming[i] && incoming[i..][1..] == incoming[i + 1..];
        var flow := TakeEvent(incoming[i]);
        match flow {
          case GoOn =>
          case Ended => return;
          case Broke(error) =>
            Send(Error(error));
            return;
        }
      }
      assert incoming[|incoming|..] == [];
      Send(TurnCompleted);
    }
  }

  // ---------------------------------------------------------------- what every turn keeps

  /** The text and the reasoning of all streamed deltas, and of all messages completed from
      streamed frames. */
  function Deltas(events: seq<Event>): string {
    if events == [] then ""
    else
      var e, before := events[|events| - 1], Deltas(events[..|events| - 1]);
      if e.TextDelta? then before + e.text else before
  }

  function Streamed(events: seq<Event>): string {
    if events == [] then ""
    else
      var e, before := events[|events| - 1], Streamed(events[..|events| - 1]);
      if e.MessageCompleted? && e.streamed then before + e.content else before
  }

  function Thoughts(events: seq<Event>): string {
    if events == [] then ""
    else
      var e, before := events[|events| - 1], Thoughts(events[..|events| - 1]);
      if e.ReasoningDelta? && e.streamed then before + e.reasoning else before
  }

  function Explained(events: seq<Event>): string {
    if events == [] then ""
    else
      var e, before := events[|events| - 1], Explained(events[..|events| - 1]);
      if e.MessageCompleted? && e.streamed then before + e.reasoning else before
  }

  ghost predicate NoTerminal(events: seq<Event>) {
    forall i :: 0 <= i < |events| ==> !Terminal(events[i])
  }

  ghost predicate StartedOnce(events: seq<Event>) {
    forall i, j :: 0 <= i < j < |events| && events[i].ToolCallStarted? && events[j].ToolCallStarted? ==>
      events[i].id != events[j].id
  }

  /** Between two events: nothing terminal yet, the started calls are the ones on record, and
      all text and reasoning streamed is either completed or still being collected. `partial`
      is what the turn resumed with. */
  ghost predicate Inv(s: State, partial: string) {
    NoTerminal(s.events) && StartedOnce(s.events)
    && (forall i :: 0 <= i < |s.events| && s.events[i].ToolCallStarted? ==> s.events[i].id in s.started)
    && partial + Deltas(s.events) == Streamed(s.events) + s.text
    && Thoughts(s.events) == Explained(s.events) + s.reasoning
  }

  /** Neither a terminal nor anything the invariant counts. */
  predicate Plain(e: Event) {
    !Terminal(e) && !e.TextDelta? && !e.ToolCallStarted? && !(e.ReasoningDelta? && e.streamed)
    && !(e.MessageCompleted? && e.streamed)
  }

  lemma SumsOneMore(events: seq<Event>, e: Event)
    ensures Deltas(events + [e]) == if e.TextDelta? then Deltas(events) + e.text else Deltas(events)
    ensures Streamed(events + [e])
         == if e.MessageCompleted? && e.streamed then Streamed(events) + e.content else Streamed(events)
    ensures Thoughts(events + [e])
         == if e.ReasoningDelta? && e.streamed then Thoughts(events) + e.reasoning else Thoughts(events)
    ensures Explained(events + [e])
         == if e.MessageCompleted? && e.streamed then Explained(events) + e.reasoning else Explained(events)
  {
    assert (events + [e])[..|events|] == events;
  }

  lemma PlainKeeps(s: State, e: Event, partial: string)
    requires Inv(s, partial) && Plain(e)
    ensures Inv(Emit(s, e), partial)
  {
    SumsOneMore(s.events, e);
  }

  lemma StartKeeps(s: State, id: string, name: string, args: string, partial: string)
    requires Inv(s, partial)
    ensures Inv(Start(s, id, name, args), partial) && Start(s, id, name, args).text == s.text
  {
    SumsOneMore(s.events, ToolCallStarted(id, name, args));
  }

  lemma {:induction false} CallsKeep(s: State, calls: seq<Call>, partial: string)
    requires Inv(s, partial)
    ensures Inv(Calls(s, calls), partial) && Calls(s, calls).text == s.text
    decreases |calls|
  {
    if calls != [] {
      var c := calls[0];
      var noted := if c.args != "" then s.(args := s.args[c.id := c.args]) else s;
      StartKeeps(noted, c.id, c.name, c.args, partial);
      CallsKeep(Start(noted, c.id, c.name, c.args), calls[1..], partial);
    }
  }

  lemma {:induction false} ResultsKeep(s: State, results: seq<CallResult>, partial: string)
    requires Inv(s, partial)
    ensures Inv(Results(s, results), partial) && Results(s, results).text == s.text
    decreases |results|
  {
    if results != [] {
      var r := results[0];
      PlainKeeps(s, ToolCallFinished(r.id, r.name, r.result), partial);
      ResultsKeep(Finish(s, r), results[1..], partial);
    }
  }

  lemma TextKeeps(s: State, text: string, partial: string)
    requires Inv(s, partial)
    ensures Inv(TextStep(s, text), partial)
  {
    if text != "" {
      SumsOneMore(s.events, TextDelta(text));
      Regroup(partial, Deltas(s.events), text);
      Regroup(Streamed(s.events), s.text, text);
      var told := TextStep(s, text);
      assert partial + Deltas(told.events) == Streamed(told.events) + told.text;
    }
  }

  lemma ReasoningKeeps(s: State, reasoning: string, partial: string)
    requires Inv(s, partial)
    ensures Inv(ReasoningStep(s, reasoning), partial)
  {
    if reasoning != "" {
      SumsOneMore(s.events, ReasoningDelta(true, reasoning));
      Regroup(Explained(s.events), s.reasoning, reasoning);
    }
  }

  lemma FrameKeeps(s: State, f: Frame, partial: string)
    requires Inv(s, partial)
    ensures Inv(FrameStep(s, f), partial)
  {
    var told := TextStep(s, f.text);
    TextKeeps(s, f.text, partial);
    ReasoningKeeps(told, f.reasoning, partial);
    CallsKeep(ReasoningStep(told, f.reasoning), f.calls, partial);
  }

  lemma {:induction false} FramesKeep(s: State, frames: seq<Frame>, partial: string)
    requires Inv(s, partial)
    ensures Inv(Frames(s, frames), partial)
    decreases |frames|
  {
    if frames != [] {
      FrameKeeps(s, frames[0], partial);
      FramesKeep(FrameStep(s, frames[0]), frames[1..], partial);
    }
  }

  lemma OneCompletionBalances(s: State, reasoning: string, left: string, partial: string)
    requires Inv(s, partial) && reasoning + left == s.reasoning
    ensures var e := MessageCompleted(true, "assistant", s.text, reasoning);
      Inv(Emit(s, e).(text := "", reasoning := left), partial)
  {
    SumsOneMore(s.events, MessageCompleted(true, "assistant", s.text, reasoning));
    assert Streamed(s.events) + s.text + "" == Streamed(s.events) + s.text;
    Regroup(Explained(s.events), reasoning, left);
  }

  lemma CompletionBalances(s: State, partial: string)
    requires Inv(s, partial)
    ensures Inv(CompleteStreamed(s), partial)
    ensures Inv(Emit(s, MessageCompleted(true, "assistant", s.text, "")).(text := ""), partial)
  {
    assert s.reasoning + "" == s.reasoning && "" + s.reasoning == s.reasoning;
    OneCompletionBalances(s, s.reasoning, "", partial);
    OneCompletionBalances(s, "", s.reasoning, partial);
  }

  /** How a turn has ended: with its one terminal event, every call started once, and no
      completed text or reasoning that was not sent as deltas. */
  ghost predicate TurnEnds(events: seq<Event>, partial: string) {
    events != [] && Terminal(events[|events| - 1]) && NoTerminal(events[..|events| - 1]) && StartedOnce(events)
    && Streamed(events) <= partial + Deltas(events) && Explained(events) <= Thoughts(events)
    && (events[|events| - 1] == Cancelled("stream interrupted") ==> partial + Deltas(events) == Streamed(events))
  }

  lemma TerminalEnds(s: State, e: Event, partial: string)
    requires Inv(s, partial) && Terminal(e)
    requires e == Cancelled("stream interrupted") ==> s.text == ""
    ensures TurnEnds(Emit(s, e).events, partial)
  {
    SumsOneMore(s.events, e);
    assert (s.events + [e])[..|s.events|] == s.events;
  }

  lemma EndStreamKeeps(s: State, end: StreamEnd, partial: string)
    requires Inv(s, partial)
    ensures var (after, flow) := EndStream(s, end);
      match flow
      case GoOn => Inv(after, partial) && after.text == ""
      case Ended => TurnEnds(after.events, partial)
      case Broke(error) => Inv(after, partial)
  {
    match end
    case Eof => if s.text != "" { CompletionBalances(s, partial); }
    case Torn => TerminalEnds(s, Cancelled("execution cancelled"), partial);
    case ContextCut =>
      if s.text == "" {
        TerminalEnds(s, Cancelled("stream interrupted"), partial);
      } else {
        CompletionBalances(s, partial);
        TerminalEnds(Emit(s, MessageCompleted(true, "assistant", s.text, "")).(text := ""),
                     Cancelled("stream interrupted"), partial);
      }
    case StreamFailed(error) =>
  }

  lemma WholeKeeps(s: State, m: Output, partial: string)
    requires m.Whole? && Inv(s, partial)
    ensures Inv(WholeMessage(s, m), partial) && WholeMessage(s, m).text == s.text
  {
    var called := Calls(s, m.calls);
    var told := Results(called, m.results);
    CallsKeep(s, m.calls, partial);
    ResultsKeep(called, m.results, partial);
    PlainKeeps(told, ReasoningDelta(false, m.reasoning), partial);
    var role := if m.role == "user" then "user" else if m.role == "tool" then "tool" else "assistant";
    var reasoning := if role == "assistant" then m.reasoning else "";
    var thought := if reasoning == "" then told else Emit(told, ReasoningDelta(false, reasoning));
    PlainKeeps(thought, MessageCompleted(false, role, m.content, reasoning), partial);
  }

  lemma SpanKeeps(s: State, span: Span, partial: string)
    requires Inv(s, partial)
    ensures Inv(SpanStep(s, span), partial) && SpanStep(s, span).text == s.text
  {
    match span
    case NoSpan =>
    case ToolStart(id, name) => StartKeeps(s, id, name, if id in s.args then s.args[id] else "", partial);
    case ToolEnd(id, name) => PlainKeeps(s, ToolCallFinished(id, name, ""), partial);
    case Replaced => PlainKeeps(s, ContextCompacted, partial);
  }

  lemma EventKeeps(s: State, e: AgentEvent, partial: string)
    requires Inv(s, partial)
    ensures var (after, flow) := EventStep(s, e);
      match flow
      case GoOn => Inv(after, partial) && (s.text == "" ==> after.text == "")
      case Ended => TurnEnds(after.events, partial)
      case Broke(error) => Inv(after, partial)
  {
    if !e.child && e.failure.NoFailure? && !e.interrupted {
      match e.output
      case NoOutput => SpanKeeps(s, e.span, partial);
      case Stream(frames, end) =>
        FramesKeep(s, frames, partial);
        EndStreamKeeps(Frames(s, frames), end, partial);
        if end == Eof { SpanKeeps(CompleteStreamed(Frames(s, frames)), e.span, partial); }
      case Whole(_, _, _, _, _) =>
        WholeKeeps(s, e.output, partial);
        SpanKeeps(WholeMessage(s, e.output), e.span, partial);
    } else {
      TerminalEnds(s, Cancelled("execution cancelled"), partial);
      TerminalEnds(s, ApprovalRequired, partial);
    }
  }

  lemma {:induction false} DrainEndsTheTurn(s: State, events: seq<AgentEvent>, partial: string)
    requires Inv(s, partial)
    ensures TurnEnds(Drain(s, events).events, partial)
    ensures var out := Drain(s, events).events;
      s.text == "" && out != [] && out[|out| - 1] == TurnCompleted ==> partial + Deltas(out) == Streamed(out)
    decreases |events|
  {
    if events == [] {
      TerminalEnds(s, TurnCompleted, partial);
      SumsOneMore(s.events, TurnCompleted);
    } else {
      EventKeeps(s, events[0], partial);
      var (after, flow) := EventStep(s, events[0]);
      match flow
      case GoOn => DrainEndsTheTurn(after, events[1..], partial);
      case Ended => EndedIsNotCompleted(s, events[0]);
      case Broke(error) => TerminalEnds(after, Error(error), partial);
    }
  }

  /** An event that ends the turn ends it cancelled or waiting for approval. */
  lemma EndedIsNotCompleted(s: State, e: AgentEvent)
    requires EventStep(s, e).1 == Ended
    ensures var out := EventStep(s, e).0.events; out != [] && out[|out| - 1] != TurnCompleted
  {
  }

  /** Every event sequence, from the start of a turn: exactly one terminal event, and it comes
      last; each tool call is started at most once, whichever lane saw it first; and when the
      turn completes, the streamed messages say exactly what the deltas said. */
  lemma EveryTurn(userText: Option<string>, events: seq<AgentEvent>)
    ensures var out := Drain(Begin(userText, ""), events).events;
      out != [] && Terminal(out[|out| - 1]) && NoTerminal(out[..|out| - 1]) && StartedOnce(out)
      && Streamed(out) <= Deltas(out) && Explained(out) <= Thoughts(out)
      && (out[|out| - 1] in [TurnCompleted, Cancelled("stream interrupted")] ==> Deltas(out) == Streamed(out))
  {
    BeginMeets(userText, "");
    DrainEndsTheTurn(Begin(userText, ""), events, "");
    var out := Drain(Begin(userText, ""), events).events;
    assert "" + Deltas(out) == Deltas(out);
  }

  lemma BeginMeets(userText: Option<string>, partial: string)
    ensures Inv(Begin(userText, partial), partial)
  {
    assert partial + "" == "" + partial;
    if userText.Some? {
      SumsOneMore([], UserMessage(userText.value));
      assert [] + [UserMessage(userText.value)] == Begin(userText, partial).events;
    }
  }

  predicate Own(e: AgentEvent) {
    !e.child
  }

  /** A delegated run's events leave no trace in the transcript. */
  lemma {:induction false} ChildrenAreInvisible(s: State, events: seq<AgentEvent>)
    ensures Drain(s, events) == Drain(s, Filter(Own, events))
    decreases |events|
  {
    if events != [] {
      var e, rest := events[0], events[1..];
      var own := Filter(Own, rest);
      assert Filter(Own, events) == if e.child then own else [e] + own;
      if e.child {
        ChildrenAreInvisible(s, rest);
      } else {
        assert ([e] + own)[0] == e && ([e] + own)[1..] == own;
        ChildrenAreInvisible(EventStep(s, e).0, rest);
      }
    }
  }

  // ---------------------------------------------------------------- what the loop gets to

  /** An event's flow does not depend on the state. */
  function FlowOf(e: AgentEvent): Flow {
    if e.child then GoOn
    else
      match e.failure
      case AgentCancelled => Ended
      case ContextCancelled => Ended
      case Failed(error) => Broke(error)
      case NoFailure =>
        if e.interrupted then Ended
        else if !e.output.Stream? then GoOn
        else
          match e.output.end
          case Eof => GoOn
          case Torn => Ended
          case ContextCut => Ended
          case StreamFailed(error) => Broke(error)
  }

  lemma FlowIsFixed(s: State, e: AgentEvent)
    ensures EventStep(s, e).1 == FlowOf(e)
  {
  }

  ghost predicate AllGoOn(events: seq<AgentEvent>) {
    forall i :: 0 <= i < |events| ==> FlowOf(events[i]) == GoOn
  }

  /** The events before the one that ends the turn. */
  function Kept(events: seq<AgentEvent>): seq<AgentEvent> {
    if events == [] || FlowOf(events[0]) != GoOn then [] else [events[0]] + Kept(events[1..])
  }

  // ---------------------------------------------------------------- how often a call is finished

  function Finishes(events: seq<Event>, id: string): nat {
    if events == [] then 0
    else
      var e := events[|events| - 1];
      Finishes(events[..|events| - 1], id) + if e.ToolCallFinished? && e.id == id then 1 else 0
  }

  predicate HasResult(results: seq<CallResult>, id: string) {
    results != [] && (results[0].id == id || HasResult(results[1..], id))
  }

  predicate Reports(e: AgentEvent, id: string) {
    !e.child && e.output.Whole? && HasResult(e.output.results, id)
  }

  predicate Spans(e: AgentEvent, id: string) {
    !e.child && e.span.ToolEnd? && e.span.id == id
  }

  /** A result message with the call's id is among the events. */
  predicate Reported(events: seq<AgentEvent>, id: string) {
    events != [] && (Reports(events[0], id) || Reported(events[1..], id))
  }

  function SpanEnds(events: seq<AgentEvent>, id: string): nat {
    if events == [] then 0 else (if Spans(events[0], id) then 1 else 0) + SpanEnds(events[1..], id)
  }

  /** The step neither shows the end of the call nor puts it on record. */
  predicate LeavesCall(s: State, next: State, id: string) {
    Finishes(next.events, id) == Finishes(s.events, id) && next.finished == s.finished
  }

  lemma EmitCounts(s: State, e: Event, id: string)
    ensures Finishes(Emit(s, e).events, id)
         == Finishes(s.events, id) + if e.ToolCallFinished? && e.id == id then 1 else 0
  {
    assert (s.events + [e])[..|s.events|] == s.events;
  }

  lemma {:induction false} CallsLeave(s: State, calls: seq<Call>, id: string)
    ensures LeavesCall(s, Calls(s, calls), id)
    decreases |calls|
  {
    if calls != [] {
      var c := calls[0];
      var noted := if c.args != "" then s.(args := s.args[c.id := c.args]) else s;
      EmitCounts(noted, ToolCallStarted(c.id, c.name, c.args), id);
      CallsLeave(Start(noted, c.id, c.name, c.args), calls[1..], id);
    }
  }

  lemma {:induction false} FramesLeave(s: State, frames: seq<Frame>, id: string)
    ensures LeavesCall(s, Frames(s, frames), id)
    decreases |frames|
  {
    if frames != [] {
      var f := frames[0];
      var told := TextStep(s, f.text);
      EmitCounts(s, TextDelta(f.text), id);
      EmitCounts(told, ReasoningDelta(true, f.reasoning), id);
      CallsLeave(ReasoningStep(told, f.reasoning), f.calls, id);
      FramesLeave(FrameStep(s, f), frames[1..], id);
    }
  }

  /** On the message lane a call is finished the first time a result names it. */
  lemma {:induction false} ResultsCount(s: State, results: seq<CallResult>, id: string)
    requires id != ""
    ensures var r := Results(s, results);
      Finishes(r.events, id) == Finishes(s.events, id) + (if id !in s.finished && HasResult(results, id) then 1 else 0)
      && (id in r.finished <==> id in s.finished || HasResult(results, id))
    decreases |results|
  {
    if results != [] {
      var r := results[0];
      EmitCounts(s, ToolCallFinished(r.id, r.name, r.result), id);
      ResultsCount(Finish(s, r), results[1..], id);
    }
  }

  lemma WholeCounts(s: State, m: Output, id: string)
    requires m.Whole? && id != ""
    ensures var r := WholeMessage(s, m);
      Finishes(r.events, id)
      == Finishes(s.events, id) + (if id !in s.finished && HasResult(m.results, id) then 1 else 0)
      && (id in r.finished <==> id in s.finished || HasResult(m.results, id))
  {
    var role := if m.role == "user" then "user" else if m.role == "tool" then "tool" else "assistant";
    var called := Calls(s, m.calls);
    var told := Results(called, m.results);
    var reasoning := if role == "assistant" then m.reasoning else "";
    var thought := if reasoning == "" then told else Emit(told, ReasoningDelta(false, reasoning));
    CallsLeave(s, m.calls, id);
    ResultsCount(called, m.results, id);
    EmitCounts(told, ReasoningDelta(false, reasoning), id);
    EmitCounts(thought, MessageCompleted(false, role, m.content, reasoning), id);
  }

  lemma StreamLeaves(s: State, frames: seq<Frame>, end: StreamEnd, id: string)
    ensures LeavesCall(s, EndStream(Frames(s, frames), end).0, id)
  {
    var r := Frames(s, frames);
    var marked := Emit(r, MessageCompleted(true, "assistant", r.text, ""));
    FramesLeave(s, frames, id);
    EmitCounts(r, MessageCompleted(true, "assistant", r.text, r.reasoning), id);
    EmitCounts(r, MessageCompleted(true, "assistant", r.text, ""), id);
    EmitCounts(r, Cancelled("execution cancelled"), id);
    EmitCounts(r, Cancelled("stream interrupted"), id);
    EmitCounts(marked, Cancelled("stream interrupted"), id);
  }

  lemma SpanCounts(s: State, span: Span, id: string)
    ensures var r := SpanStep(s, span);
      Finishes(r.events, id) == Finishes(s.events, id) + (if span.ToolEnd? && span.id == id then 1 else 0)
      && r.finished == s.finished
  {
    match span
    case NoSpan =>
    case ToolStart(i, name) => EmitCounts(s, ToolCallStarted(i, name, if i in s.args then s.args[i] else ""), id);
    case ToolEnd(i, name) => EmitCounts(s, ToolCallFinished(i, name, ""), id);
    case Replaced => EmitCounts(s, ContextCompacted, id);
  }

  lemma EventCounts(s: State, e: AgentEvent, id: string)
    requires FlowOf(e) == GoOn && id != ""
    ensures var r := EventStep(s, e).0;
      Finishes(r.events, id) == Finishes(s.events, id)
        + (if id !in s.finished && Reports(e, id) then 1 else 0) + (if Spans(e, id) then 1 else 0)
      && (id in r.finished <==> id in s.finished || Reports(e, id))
  {
    if !e.child {
      match e.output {
        case NoOutput =>
        case Stream(frames, end) => StreamLeaves(s, frames, end, id);
        case Whole(_, _, _, _, _) => WholeCounts(s, e.output, id);
      }
      SpanCounts(OutputStep(s, e.output).0, e.span, id);
    }
  }

  lemma LastEventCounts(s: State, e: AgentEvent, id: string)
    requires FlowOf(e) != GoOn
    ensures Finishes(EventStep(s, e).0.events, id) == Finishes(s.events, id)
  {
    EmitCounts(s, Cancelled("execution cancelled"), id);
    EmitCounts(s, ApprovalRequired, id);
    if e.output.Stream? { StreamLeaves(s, e.output.frames, e.output.end, id); }
  }

  lemma {:induction false} DrainCounts(s: State, events: seq<AgentEvent>, id: string)
    requires id != ""
    ensures Finishes(Drain(s, events).events, id) == Finishes(s.events, id)
        + (if id !in s.finished && Reported(Kept(events), id) then 1 else 0) + SpanEnds(Kept(events), id)
    decreases |events|
  {
    if events == [] {
      EmitCounts(s, TurnCompleted, id);
    } else {
      var (after, flow) := EventStep(s, events[0]);
      FlowIsFixed(s, events[0]);
      if flow == GoOn {
        var rest := Kept(events[1..]);
        assert Kept(events)[0] == events[0] && Kept(events)[1..] == rest;
        EventCounts(s, events[0], id);
        DrainCounts(after, events[1..], id);
      } else {
        LastEventCounts(s, events[0], id);
        if flow.Broke? { EmitCounts(after, Error(flow.error), id); }
      }
    }
  }

  /** In every turn a call with an id is shown finished once for the result messages that name
      it, however many, and once more for each of its span ends. So it is shown finished at
      most once exactly when it has no span end, or one and no result message. */
  lemma FinishedAtMostOnceIff(userText: Option<string>, partial: string, events: seq<AgentEvent>, id: string)
    requires id != ""
    ensures var n, kept := Finishes(Drain(Begin(userText, partial), events).events, id), Kept(events);
      n == (if Reported(kept, id) then 1 else 0) + SpanEnds(kept, id)
      && (n <= 1 <==> SpanEnds(kept, id) == 0 || (SpanEnds(kept, id) == 1 && !Reported(kept, id)))
  {
    var s := Begin(userText, partial);
    DrainCounts(s, events, id);
    if userText.Some? { assert s.events[..0] == []; }
  }

  // ---------------------------------------------------------------- whose reasoning a message carries

  function TextOf(frames: seq<Frame>): string {
    if frames == [] then "" else frames[0].text + TextOf(frames[1..])
  }

  function ReasoningOf(frames: seq<Frame>): string {
    if frames == [] then "" else frames[0].reasoning + ReasoningOf(frames[1..])
  }

  lemma {:induction false} CallsCollect(s: State, calls: seq<Call>)
    ensures Calls(s, calls).text == s.text && Calls(s, calls).reasoning == s.reasoning
    decreases |calls|
  {
    if calls != [] {
      var c := calls[0];
      var noted := if c.args != "" then s.(args := s.args[c.id := c.args]) else s;
      CallsCollect(Start(noted, c.id, c.name, c.args), calls[1..]);
    }
  }

  lemma {:induction false} ResultsCollect(s: State, results: seq<CallResult>)
    ensures Results(s, results).text == s.text && Results(s, results).reasoning == s.reasoning
    decreases |results|
  {
    if results != [] { ResultsCollect(Finish(s, results[0]), results[1..]); }
  }

  lemma {:induction false} FramesCollect(s: State, frames: seq<Frame>)
    ensures Frames(s, frames).text == s.text + TextOf(frames)
    ensures Frames(s, frames).reasoning == s.reasoning + ReasoningOf(frames)
    decreases |frames|
  {
    if frames == [] {
      assert s.text + "" == s.text && s.reasoning + "" == s.reasoning;
    } else {
      var f := frames[0];
      CallsCollect(ReasoningStep(TextStep(s, f.text), f.reasoning), f.calls);
      FramesCollect(FrameStep(s, f), frames[1..]);
      Regroup(s.text, f.text, TextOf(frames[1..]));
      Regroup(s.reasoning, f.reasoning, ReasoningOf(frames[1..]));
      assert f.text == "" ==> s.text + f.text == s.text;
      assert f.reasoning == "" ==> s.reasoning + f.reasoning == s.reasoning;
    }
  }

  /** The events, as far as they go on, taken one after the other. */
  function Taken(s: State, events: seq<AgentEvent>): State {
    if events == [] then s else EventStep(Taken(s, events[..|events| - 1]), events[|events| - 1]).0
  }

  /** A model stream of the turn itself. */
  predicate OwnStream(e: AgentEvent) {
    !e.child && e.output.Stream?
  }

  predicate NoStreamBefore(events: seq<AgentEvent>, j: nat)
    requires j <= |events|
  {
    forall i :: 0 <= i < j ==> !OwnStream(events[i])
  }

  /** The stream completes a message: it has text, or is the first of a turn that resumed with
      some. */
  predicate Completing(partial: string, events: seq<AgentEvent>, j: nat)
    requires j < |events|
  {
    OwnStream(events[j])
    && (TextOf(events[j].output.frames) != "" || (partial != "" && NoStreamBefore(events, j)))
  }

  /** Since the last stream that completed a message one has sent reasoning without text. */
  ghost predicate Outlives(partial: string, events: seq<AgentEvent>) {
    exists k :: OutlivesAt(partial, events, k)
  }

  predicate OutlivesAt(partial: string, events: seq<AgentEvent>, k: int) {
    0 <= k < |events| && OwnStream(events[k]) && ReasoningOf(events[k].output.frames) != ""
    && forall j :: k <= j < |events| ==> !Completing(partial, events, j)
  }

  lemma WholeCollects(s: State, m: Output)
    requires m.Whole?
    ensures WholeMessage(s, m).text == s.text && WholeMessage(s, m).reasoning == s.reasoning
  {
    CallsCollect(s, m.calls);
    ResultsCollect(Calls(s, m.calls), m.results);
  }

  lemma SpanCollects(s: State, span: Span)
    ensures SpanStep(s, span).text == s.text && SpanStep(s, span).reasoning == s.reasoning
  {
  }

  lemma CompleteCollects(s: State)
    ensures CompleteStreamed(s).text == "" && CompleteStreamed(s).reasoning == if s.text == "" then s.reasoning else ""
  {
  }

  lemma OwnEventStep(s: State, e: AgentEvent)
    requires FlowOf(e) == GoOn && !e.child
    ensures EventStep(s, e).0 == SpanStep(
      if e.output.Stream? then CompleteStreamed(Frames(s, e.output.frames))
      else if e.output.Whole? then WholeMessage(s, e.output) else s, e.span)
  {
  }

  lemma StreamStep(s: State, e: AgentEvent)
    requires FlowOf(e) == GoOn
    ensures var r := EventStep(s, e).0;
      if OwnStream(e) then
        var text, reasoning := s.text + TextOf(e.output.frames), s.reasoning + ReasoningOf(e.output.frames);
        r.text == "" && r.reasoning == if text == "" then reasoning else ""
      else r.text == s.text && r.reasoning == s.reasoning
  {
    if !e.child {
      OwnEventStep(s, e);
      if e.output.Stream? {
        var framed := Frames(s, e.output.frames);
        FramesCollect(s, e.output.frames);
        CompleteCollects(framed);
        SpanCollects(CompleteStreamed(framed), e.span);
      } else if e.output.Whole? {
        WholeCollects(s, e.output);
        SpanCollects(WholeMessage(s, e.output), e.span);
      } else {
        SpanCollects(s, e.span);
      }
    }
  }

  lemma CompletingStays(partial: string, events: seq<AgentEvent>, n: nat, j: nat)
    requires j < n <= |events|
    ensures Completing(partial, events[..n], j) <==> Completing(partial, events, j)
  {
    assert forall i :: 0 <= i <= j ==> events[..n][i] == events[i];
  }

  lemma OutlivesNext(partial: string, events: seq<AgentEvent>)
    requires events != []
    ensures var n := |events| - 1;
      Outlives(partial, events)
      <==> !Completing(partial, events, n)
           && ((OwnStream(events[n]) && ReasoningOf(events[n].output.frames) != "") || Outlives(partial, events[..n]))
  {
    var n, before := |events| - 1, events[..|events| - 1];
    forall j | 0 <= j < n ensures Completing(partial, before, j) <==> Completing(partial, events, j) {
      CompletingStays(partial, events, n, j);
    }
    if k :| OutlivesAt(partial, events, k) {
      assert !Completing(partial, events, n);
      if k < n { assert OutlivesAt(partial, before, k); }
    }
    if !Completing(partial, events, n) {
      if OwnStream(events[n]) && ReasoningOf(events[n].output.frames) != "" { assert OutlivesAt(partial, events, n); }
      if k :| OutlivesAt(partial, before, k) { assert OutlivesAt(partial, events, k); }
    }
  }

  /** What is still being collected between two events: the resumed text until the first
      stream, and reasoning exactly when some has outlived its stream. */
  lemma {:induction false} CollectedIff(userText: Option<string>, partial: string, events: seq<AgentEvent>)
    requires AllGoOn(events)
    ensures var s := Taken(Begin(userText, partial), events);
      s.text == (if NoStreamBefore(events, |events|) then partial else "")
      && (s.reasoning != "" <==> Outlives(partial, events))
    decreases |events|
  {
    if events != [] {
      var n, before := |events| - 1, events[..|events| - 1];
      var s := Taken(Begin(userText, partial), before);
      assert AllGoOn(before) && FlowOf(events[n]) == GoOn;
      CollectedIff(userText, partial, before);
      assert Taken(Begin(userText, partial), events) == EventStep(s, events[n]).0;
      StreamStep(s, events[n]);
      OutlivesNext(partial, events);
      assert NoStreamBefore(before, n) <==> NoStreamBefore(events, n);
    }
  }

  lemma {:induction false} DrainTakes(s: State, before: seq<AgentEvent>, rest: seq<AgentEvent>)
    requires AllGoOn(before)
    ensures Drain(s, before + rest) == Drain(Taken(s, before), rest)
    decreases |before|
  {
    if before == [] {
      assert before + rest == rest;
    } else {
      var n := |before| - 1;
      var e := before[n];
      assert before + rest == before[..n] + ([e] + rest);
      DrainTakes(s, before[..n], [e] + rest);
      FlowIsFixed(Taken(s, before[..n]), e);
      assert ([e] + rest)[0] == e && ([e] + rest)[1..] == rest;
    }
  }

  lemma {:induction false} DrainGrows(s: State, events: seq<AgentEvent>)
    ensures s.events <= Drain(s, events).events
    decreases |events|
  {
    if events != [] {
      var (after, flow) := EventStep(s, events[0]);
      EventGrows(s, events[0]);
      if flow == GoOn { DrainGrows(after, events[1..]); }
    }
  }

  lemma EventGrows(s: State, e: AgentEvent)
    ensures s.events <= EventStep(s, e).0.events
    ensures FlowOf(e) == GoOn && OwnStream(e) ==>
      CompleteStreamed(Frames(s, e.output.frames)).events <= EventStep(s, e).0.events
  {
  }

  /** A stream that completes a message, wherever it stands in a turn: the message carries
      exactly that stream's reasoning when no reasoning has outlived an earlier stream, and
      otherwise an earlier stream's before it. */
  lemma CarriesItsOwnReasoningIff(userText: Option<string>, partial: string, before: seq<AgentEvent>, e: AgentEvent,
                                  rest: seq<AgentEvent>)
    requires AllGoOn(before + [e]) && Completing(partial, before + [e], |before|)
    ensures var frames, s := e.output.frames, Taken(Begin(userText, partial), before);
      var told := CompleteStreamed(Frames(s, frames)).events;
      told <= Drain(Begin(userText, partial), before + [e] + rest).events
      && told != [] && told[|told| - 1]
           == MessageCompleted(true, "assistant", s.text + TextOf(frames), s.reasoning + ReasoningOf(frames))
      && (s.reasoning + ReasoningOf(frames) == ReasoningOf(frames) <==> !Outlives(partial, before))
  {
    var s, all := Taken(Begin(userText, partial), before), before + [e];
    assert all[..|before|] == before && all[|before|] == e;
    assert forall i :: 0 <= i < |before| ==> before[i] == all[i];
    CollectedIff(userText, partial, before);
    assert NoStreamBefore(all, |before|) <==> NoStreamBefore(before, |before|);
    FramesCollect(s, e.output.frames);
    assert before + [e] + rest == before + ([e] + rest);
    DrainTakes(Begin(userText, partial), before, [e] + rest);
    assert ([e] + rest)[0] == e && ([e] + rest)[1..] == rest;
    FlowIsFixed(s, e);
    EventGrows(s, e);
    DrainGrows(EventStep(s, e).0, rest);
    assert s.reasoning == "" ==> s.reasoning + ReasoningOf(e.output.frames) == ReasoningOf(e.output.frames);
  }

  // ---------------------------------------------------------------- the whole turn, by its events

  /** What an agent event offers the transcript. Of the offers made once, starts and results of
      calls, only the first with its id is shown. */
  datatype Offer = Once(event: Event) | Always(event: Event)

  function AskOffer(c: Call): Offer {
    Once(ToolCallStarted(c.id, c.name, c.args))
  }

  function AnswerOffer(r: CallResult): Offer {
    Once(ToolCallFinished(r.id, r.name, r.result))
  }

  function FrameOffers(f: Frame): seq<Offer> {
    [Always(TextDelta(f.text)), Always(ReasoningDelta(true, f.reasoning))] + Map(AskOffer, f.calls)
  }

  function FramesOffers(frames: seq<Frame>): seq<Offer> {
    if frames == [] then [] else FrameOffers(frames[0]) + FramesOffers(frames[1..])
  }

  /** A complete message speaks as the user, a tool or, whatever else it says, the assistant,
      and only the assistant's reasoning is told. */
  function MessageOffers(m: Output): seq<Offer>
    requires m.Whole?
  {
    var spoken := if m.role in ["user", "tool"] then m.role else "assistant";
    var reasoning := if m.role in ["user", "tool"] then "" else m.reasoning;
    [Always(ReasoningDelta(false, reasoning)), Always(MessageCompleted(false, spoken, m.content, reasoning))]
  }

  /** A span's start offers no arguments: those on record belong to calls started already. */
  function SpanOffers(span: Span): seq<Offer> {
    match span
    case NoSpan => []
    case ToolStart(id, name) => [Once(ToolCallStarted(id, name, ""))]
    case ToolEnd(id, name) => [Always(ToolCallFinished(id, name, ""))]
    case Replaced => [Always(ContextCompacted)]
  }

  /** An own event that failed, was interrupted, or whose stream did not come to its end. */
  predicate Ends(e: AgentEvent) {
    !e.child && (e.failure != NoFailure || e.interrupted || (e.output.Stream? && e.output.end != Eof))
  }

  function EventOffers(e: AgentEvent): seq<Offer> {
    if e.child || e.failure != NoFailure || e.interrupted then []
    else
      (match e.output
       case NoOutput => []
       case Stream(frames, _) => FramesOffers(frames)
       case Whole(_, _, _, calls, results) =>
         Map(AskOffer, calls) + Map(AnswerOffer, results) + MessageOffers(e.output))
      + if Ends(e) then [] else SpanOffers(e.span)
  }

  function Offers(events: seq<AgentEvent>): seq<Offer> {
    if events == [] then [] else EventOffers(events[0]) + if Ends(events[0]) then [] else Offers(events[1..])
  }

  predicate SameCall(a: Offer, b: Offer) {
    a.Once? && b.Once?
    && ((a.event.ToolCallStarted? && b.event.ToolCallStarted? && a.event.id == b.event.id)
        || (a.event.ToolCallFinished? && b.event.ToolCallFinished? && a.event.id == b.event.id))
  }

  /** An offer is shown when it says something; a call's, when it has an id and is the first. */
  predicate Heard(before: seq<Offer>, o: Offer) {
    match o
    case Always(e) =>
      (e.TextDelta? ==> e.text != "") && (e.ReasoningDelta? ==> e.reasoning != "")
      && (e.MessageCompleted? ==> e.content != "")
    case Once(e) =>
      (e.ToolCallStarted? || e.ToolCallFinished? ==> e.id != "") && forall b :: b in before ==> !SameCall(b, o)
  }

  /** What is shown of the offers that come behind `before`. */
  function Shown(before: seq<Offer>, offers: seq<Offer>): seq<Event>
    decreases |offers|
  {
    if offers == [] then []
    else (if Heard(before, offers[0]) then [offers[0].event] else []) + Shown(before + [offers[0]], offers[1..])
  }

  /** Not a message completed from streamed frames, which its deltas tell already. */
  predicate Unstreamed(e: Event) {
    !(e.MessageCompleted? && e.streamed)
  }

  ghost predicate Tracks(s: State, before: seq<Offer>) {
    (forall id :: id in s.started <==> id != "" && exists o :: o in before && o.Once? && Starts(o.event, id))
    && (forall id :: id in s.finished <==> id != "" && exists o :: o in before && o.Once? && Answers(o.event, id))
    && forall id :: id in s.args && id != "" ==> id in s.started
  }

  predicate Starts(e: Event, id: string) {
    e.ToolCallStarted? && e.id == id
  }

  predicate Answers(e: Event, id: string) {
    e.ToolCallFinished? && e.id == id
  }

  /** From s to t the transcript has grown by what is shown of the offers. */
  ghost predicate Gives(s: State, before: seq<Offer>, t: State, offers: seq<Offer>) {
    Filter(Unstreamed, t.events) == Filter(Unstreamed, s.events) + Shown(before, offers) && Tracks(t, before + offers)
  }

  lemma {:induction false} ShownAppend(before: seq<Offer>, a: seq<Offer>, b: seq<Offer>)
    ensures Shown(before, a + b) == Shown(before, a) + Shown(before + a, b)
    decreases |a|
  {
    if a == [] {
      assert a + b == b && before + a == before;
    } else {
      var first := if Heard(before, a[0]) then [a[0].event] else [];
      assert (a + b)[0] == a[0] && (a + b)[1..] == a[1..] + b;
      assert before + [a[0]] + a[1..] == before + a;
      ShownAppend(before + [a[0]], a[1..], b);
      Regroup(first, Shown(before + [a[0]], a[1..]), Shown(before + a, b));
    }
  }

  lemma GivesNothing(s: State, before: seq<Offer>)
    requires Tracks(s, before)
    ensures Gives(s, before, s, [])
  {
    assert before + [] == before && Filter(Unstreamed, s.events) + [] == Filter(Unstreamed, s.events);
  }

  lemma GivesBoth(s: State, before: seq<Offer>, t: State, a: seq<Offer>, u: State, b: seq<Offer>)
    requires Gives(s, before, t, a) && Gives(t, before + a, u, b)
    ensures Gives(s, before, u, a + b)
  {
    ShownAppend(before, a, b);
    Regroup(Filter(Unstreamed, s.events), Shown(before, a), Shown(before + a, b));
    Regroup(before, a, b);
  }

  lemma ShownOne(before: seq<Offer>, o: Offer)
    ensures Shown(before, [o]) == if Heard(before, o) then [o.event] else []
  {
    assert [o][1..] == [] && [o.event] + [] == [o.event];
  }

  lemma EmitsOne(s: State, e: Event)
    ensures Filter(Unstreamed, Emit(s, e).events)
         == Filter(Unstreamed, s.events) + if Unstreamed(e) then [e] else []
  {
    FilterAppend(Unstreamed, s.events, [e]);
    FilterOne(Unstreamed, e);
  }

  lemma TracksAlways(s: State, before: seq<Offer>, e: Event)
    requires Tracks(s, before)
    ensures Tracks(s, before + [Always(e)])
  {
    forall o: Offer ensures o.Once? && o in before + [Always(e)] <==> o.Once? && o in before {}
  }

  lemma TracksStart(s: State, t: State, before: seq<Offer>, c: Call)
    requires Tracks(s, before)
    requires t.started == (if c.id == "" then s.started else s.started + {c.id}) && t.finished == s.finished
    requires forall id :: id in t.args && id != "" ==> id in t.started
    ensures Tracks(t, before + [AskOffer(c)])
  {
    var all := before + [AskOffer(c)];
    forall id ensures id in t.started <==> id != "" && exists o :: o in all && o.Once? && Starts(o.event, id) {
      if o :| o in before && o.Once? && Starts(o.event, id) { assert o in all; }
      if id == c.id { assert AskOffer(c) in all; }
    }
    forall id ensures id in t.finished <==> id != "" && exists o :: o in all && o.Once? && Answers(o.event, id) {
      if o :| o in before && o.Once? && Answers(o.event, id) { assert o in all; }
    }
  }

  lemma TracksAnswer(s: State, t: State, before: seq<Offer>, r: CallResult)
    requires Tracks(s, before)
    requires t.finished == (if r.id == "" then s.finished else s.finished + {r.id}) && t.started == s.started
    requires t.args == s.args
    ensures Tracks(t, before + [AnswerOffer(r)])
  {
    var all := before + [AnswerOffer(r)];
    forall id ensures id in t.finished <==> id != "" && exists o :: o in all && o.Once? && Answers(o.event, id) {
      if o :| o in before && o.Once? && Answers(o.event, id) { assert o in all; }
      if id == r.id { assert AnswerOffer(r) in all; }
    }
    forall id ensures id in t.started <==> id != "" && exists o :: o in all && o.Once? && Starts(o.event, id) {
      if o :| o in before && o.Once? && Starts(o.event, id) { assert o in all; }
    }
  }

  lemma HeardAsk(s: State, before: seq<Offer>, c: Call)
    requires Tracks(s, before)
    ensures Heard(before, AskOffer(c)) <==> c.id != "" && c.id !in s.started
  {
    if o :| o in before && o.Once? && Starts(o.event, c.id) { assert SameCall(o, AskOffer(c)); }
  }

  lemma HeardAnswer(s: State, before: seq<Offer>, r: CallResult)
    requires Tracks(s, before)
    ensures Heard(before, AnswerOffer(r)) <==> r.id != "" && r.id !in s.finished
  {
    if o :| o in before && o.Once? && Answers(o.event, r.id) { assert SameCall(o, AnswerOffer(r)); }
  }

  lemma StartGives(s: State, noted: State, before: seq<Offer>, c: Call)
    requires Tracks(s, before) && noted == s.(args := noted.args)
    requires forall id :: id in noted.args && id != "" ==> id in s.started || id == c.id
    ensures Gives(s, before, Start(noted, c.id, c.name, c.args), [AskOffer(c)])
  {
    var t := Start(noted, c.id, c.name, c.args);
    HeardAsk(s, before, c);
    ShownOne(before, AskOffer(c));
    EmitsOne(noted, ToolCallStarted(c.id, c.name, c.args));
    assert t.started == if c.id == "" then s.started else s.started + {c.id};
    TracksStart(s, t, before, c);
  }

  lemma FinishGives(s: State, before: seq<Offer>, r: CallResult)
    requires Tracks(s, before)
    ensures Gives(s, before, Finish(s, r), [AnswerOffer(r)])
  {
    var t := Finish(s, r);
    assert t.finished == if r.id == "" then s.finished else s.finished + {r.id};
    assert Tracks(t, before + [AnswerOffer(r)]) by { TracksAnswer(s, t, before, r); }
    HeardAnswer(s, before, r);
    ShownOne(before, AnswerOffer(r));
    EmitsOne(s, ToolCallFinished(r.id, r.name, r.result));
  }

  /** One event that is always offered, shown when it says something. */
  lemma AlwaysGives(s: State, t: State, before: seq<Offer>, e: Event)
    requires Tracks(s, before) && Unstreamed(e)
    requires t.started == s.started && t.finished == s.finished && t.args == s.args
    requires t.events == if Heard(before, Always(e)) then s.events + [e] else s.events
    ensures Gives(s, before, t, [Always(e)])
  {
    ShownOne(before, Always(e));
    EmitsOne(s, e);
    TracksAlways(s, before, e);
    assert Tracks(t, before + [Always(e)]);
  }

  lemma {:induction false} CallsGive(s: State, before: seq<Offer>, calls: seq<Call>)
    requires Tracks(s, before)
    ensures Gives(s, before, Calls(s, calls), Map(AskOffer, calls))
    decreases |calls|
  {
    if calls == [] {
      GivesNothing(s, before);
    } else {
      var c := calls[0];
      var noted := if c.args != "" then s.(args := s.args[c.id := c.args]) else s;
      var t := Start(noted, c.id, c.name, c.args);
      StartGives(s, noted, before, c);
      CallsGive(t, before + [AskOffer(c)], calls[1..]);
      GivesBoth(s, before, t, [AskOffer(c)], Calls(t, calls[1..]), Map(AskOffer, calls[1..]));
      assert Map(AskOffer, calls) == [AskOffer(c)] + Map(AskOffer, calls[1..]);
    }
  }

  lemma {:induction false} ResultsGive(s: State, before: seq<Offer>, results: seq<CallResult>)
    requires Tracks(s, before)
    ensures Gives(s, before, Results(s, results), Map(AnswerOffer, results))
    decreases |results|
  {
    if results == [] {
      GivesNothing(s, before);
    } else {
      var r := results[0];
      var t := Finish(s, r);
      FinishGives(s, before, r);
      ResultsGive(t, before + [AnswerOffer(r)], results[1..]);
      GivesBoth(s, before, t, [AnswerOffer(r)], Results(t, results[1..]), Map(AnswerOffer, results[1..]));
      assert Map(AnswerOffer, results) == [AnswerOffer(r)] + Map(AnswerOffer, results[1..]);
    }
  }

  lemma FrameGives(s: State, before: seq<Offer>, f: Frame)
    requires Tracks(s, before)
    ensures Gives(s, before, FrameStep(s, f), FrameOffers(f))
  {
    var text, thought := Always(TextDelta(f.text)), Always(ReasoningDelta(true, f.reasoning));
    var t := TextStep(s, f.text);
    var u := ReasoningStep(t, f.reasoning);
    AlwaysGives(s, t, before, TextDelta(f.text));
    AlwaysGives(t, u, before + [text], ReasoningDelta(true, f.reasoning));
    GivesBoth(s, before, t, [text], u, [thought]);
    assert [text] + [thought] == [text, thought];
    CallsGive(u, before + [text, thought], f.calls);
    GivesBoth(s, before, u, [text, thought], Calls(u, f.calls), Map(AskOffer, f.calls));
  }

  lemma {:induction false} FramesGive(s: State, before: seq<Offer>, frames: seq<Frame>)
    requires Tracks(s, before)
    ensures Gives(s, before, Frames(s, frames), FramesOffers(frames))
    decreases |frames|
  {
    if frames == [] {
      GivesNothing(s, before);
    } else {
      var t := FrameStep(s, frames[0]);
      FrameGives(s, before, frames[0]);
      FramesGive(t, before + FrameOffers(frames[0]), frames[1..]);
      GivesBoth(s, before, t, FrameOffers(frames[0]), Frames(t, frames[1..]), FramesOffers(frames[1..]));
    }
  }

  lemma WholeGives(s: State, before: seq<Offer>, m: Output)
    requires Tracks(s, before) && m.Whole?
    ensures Gives(s, before, WholeMessage(s, m),
                  Map(AskOffer, m.calls) + Map(AnswerOffer, m.results) + MessageOffers(m))
  {
    var role := if m.role == "user" then "user" else if m.role == "tool" then "tool" else "assistant";
    var reasoning := if role == "assistant" then m.reasoning else "";
    var asked, answered := Map(AskOffer, m.calls), Map(AnswerOffer, m.results);
    var t := Calls(s, m.calls);
    var told := Results(t, m.results);
    CallsGive(s, before, m.calls);
    ResultsGive(t, before + asked, m.results);
    GivesBoth(s, before, t, asked, told, answered);
    SayGives(told, before + (asked + answered), role, m.content, reasoning);
    assert MessageOffers(m)
        == [Always(ReasoningDelta(false, reasoning)), Always(MessageCompleted(false, role, m.content, reasoning))];
    GivesBoth(s, before, told, asked + answered, WholeMessage(s, m), MessageOffers(m));
  }

  lemma SayGives(s: State, before: seq<Offer>, role: string, content: string, reasoning: string)
    requires Tracks(s, before)
    ensures var thought := if reasoning == "" then s else Emit(s, ReasoningDelta(false, reasoning));
      Gives(s, before,
            if content == "" then thought else Emit(thought, MessageCompleted(false, role, content, reasoning)),
            [Always(ReasoningDelta(false, reasoning)), Always(MessageCompleted(false, role, content, reasoning))])
  {
    var thought := if reasoning == "" then s else Emit(s, ReasoningDelta(false, reasoning));
    var said := if content == "" then thought else Emit(thought, MessageCompleted(false, role, content, reasoning));
    var a, b := ReasoningDelta(false, reasoning), MessageCompleted(false, role, content, reasoning);
    AlwaysGives(s, thought, before, a);
    AlwaysGives(thought, said, before + [Always(a)], b);
    GivesBoth(s, before, thought, [Always(a)], said, [Always(b)]);
    assert [Always(a)] + [Always(b)] == [Always(a), Always(b)];
  }

  lemma SpanGives(s: State, before: seq<Offer>, span: Span)
    requires Tracks(s, before)
    ensures Gives(s, before, SpanStep(s, span), SpanOffers(span))
  {
    match span
    case NoSpan => GivesNothing(s, before);
    case ToolStart(id, name) =>
      StartGives(s, s, before, Call(id, name, ""));
      assert id != "" && id !in s.started ==> id !in s.args;
    case ToolEnd(id, name) => AlwaysGives(s, SpanStep(s, span), before, ToolCallFinished(id, name, ""));
    case Replaced => AlwaysGives(s, SpanStep(s, span), before, ContextCompacted);
  }

  /** A message completed from streamed frames does not count here. */
  lemma CompletionGives(s: State, before: seq<Offer>, t: State, offers: seq<Offer>)
    requires Gives(s, before, t, offers)
    ensures Gives(s, before, CompleteStreamed(t), offers)
  {
    EmitsOne(t, MessageCompleted(true, "assistant", t.text, t.reasoning));
  }

  lemma EndsIff(e: AgentEvent)
    ensures Ends(e) <==> FlowOf(e) != GoOn
  {
  }

  lemma EventGives(s: State, before: seq<Offer>, e: AgentEvent)
    requires Tracks(s, before) && !Ends(e)
    ensures Gives(s, before, EventStep(s, e).0, EventOffers(e))
  {
    if e.child {
      GivesNothing(s, before);
    } else {
      EndsIff(e);
      OwnEventStep(s, e);
      match e.output
      case NoOutput =>
        SpanGives(s, before, e.span);
        assert [] + SpanOffers(e.span) == SpanOffers(e.span);
      case Stream(frames, end) =>
        var t := CompleteStreamed(Frames(s, frames));
        FramesGive(s, before, frames);
        CompletionGives(s, before, Frames(s, frames), FramesOffers(frames));
        SpanGives(t, before + FramesOffers(frames), e.span);
        GivesBoth(s, before, t, FramesOffers(frames), SpanStep(t, e.span), SpanOffers(e.span));
      case Whole(_, _, _, calls, results) =>
        var t, offers :=
          WholeMessage(s, e.output), Map(AskOffer, calls) + Map(AnswerOffer, results) + MessageOffers(e.output);
        WholeGives(s, before, e.output);
        SpanGives(t, before + offers, e.span);
        GivesBoth(s, before, t, offers, SpanStep(t, e.span), SpanOffers(e.span));
    }
  }

  /** The terminal event an event that ends the turn ends it with. */
  ghost predicate EndsWith(e: AgentEvent, t: Event) {
    match e.failure
    case AgentCancelled => t == Cancelled("execution cancelled")
    case ContextCancelled => t == Cancelled("execution cancelled")
    case Failed(error) => t == Error(error)
    case NoFailure =>
      if e.interrupted then t == ApprovalRequired
      else if !e.output.Stream? then false
      else
        match e.output.end
        case Eof => false
        case Torn => t == Cancelled("execution cancelled")
        case ContextCut => t == Cancelled("stream interrupted")
        case StreamFailed(error) => t == Error(error)
  }

  predicate EndsFirst(events: seq<AgentEvent>, i: nat)
    requires i < |events|
  {
    Ends(events[i]) && forall j :: 0 <= j < i ==> !Ends(events[j])
  }

  /** The turn's terminal event: completed when every event goes on, and otherwise what the first
      one that does not asks for. */
  ghost predicate EndsTheTurn(events: seq<AgentEvent>, t: Event) {
    ((forall i :: 0 <= i < |events| ==> !Ends(events[i])) ==> t == TurnCompleted)
    && forall i :: 0 <= i < |events| && EndsFirst(events, i) ==> EndsWith(events[i], t)
  }

  lemma TerminalShows(s: State, t: Event)
    requires Terminal(t)
    ensures Filter(Unstreamed, Emit(s, t).events) == Filter(Unstreamed, s.events) + [t]
  {
    EmitsOne(s, t);
  }

  /** From s to `out` the transcript has grown by what is shown of the offers and a terminal. */
  ghost predicate Closes(s: State, before: seq<Offer>, offers: seq<Offer>, out: seq<Event>, t: Event) {
    Terminal(t) && Filter(Unstreamed, out) == Filter(Unstreamed, s.events) + Shown(before, offers) + [t]
  }

  lemma TerminalCloses(s: State, before: seq<Offer>, after: State, offers: seq<Offer>, t: Event)
    requires Gives(s, before, after, offers) && Terminal(t)
    ensures Closes(s, before, offers, Emit(after, t).events, t)
  {
    TerminalShows(after, t);
  }

  lemma StreamCloses(s: State, before: seq<Offer>, frames: seq<Frame>, end: StreamEnd)
    requires Tracks(s, before) && end != Eof
    ensures var (after, flow) := EndStream(Frames(s, frames), end);
      match end
      case Torn =>
        flow == Ended && Closes(s, before, FramesOffers(frames), after.events, Cancelled("execution cancelled"))
      case ContextCut =>
        flow == Ended && Closes(s, before, FramesOffers(frames), after.events, Cancelled("stream interrupted"))
      case StreamFailed(x) =>
        flow == Broke(x) && Closes(s, before, FramesOffers(frames), Emit(after, Error(x)).events, Error(x))
      case Eof => true
  {
    var t := Frames(s, frames);
    FramesGive(s, before, frames);
    match end
    case Torn => TerminalCloses(s, before, t, FramesOffers(frames), Cancelled("execution cancelled"));
    case ContextCut =>
      var marked := if t.text == "" then t else Emit(t, MessageCompleted(true, "assistant", t.text, ""));
      EmitsOne(t, MessageCompleted(true, "assistant", t.text, ""));
      assert Gives(s, before, marked, FramesOffers(frames));
      TerminalCloses(s, before, marked, FramesOffers(frames), Cancelled("stream interrupted"));
    case StreamFailed(error) => TerminalCloses(s, before, t, FramesOffers(frames), Error(error));
  }

  /** An event that ends the turn leaves what was shown of it and its terminal event. */
  lemma LastEventTells(s: State, before: seq<Offer>, e: AgentEvent) returns (t: Event)
    requires Tracks(s, before) && Ends(e)
    ensures var (after, flow) := EventStep(s, e);
      var last := if flow.Broke? then Emit(after, Error(flow.error)) else after;
      flow != GoOn && Closes(s, before, EventOffers(e), last.events, t)
  {
    if e.failure != NoFailure || e.interrupted {
      t := if e.failure.Failed? then Error(e.failure.error)
           else if e.failure == NoFailure then ApprovalRequired else Cancelled("execution cancelled");
      GivesNothing(s, before);
      TerminalCloses(s, before, s, [], t);
    } else {
      var end := e.output.end;
      t := if end == Torn then Cancelled("execution cancelled")
           else if end == ContextCut then Cancelled("stream interrupted") else Error(end.error);
      assert EventOffers(e) == FramesOffers(e.output.frames) + [] == FramesOffers(e.output.frames);
      StreamCloses(s, before, e.output.frames, end);
    }
  }

  lemma NextEnds(e: AgentEvent, rest: seq<AgentEvent>, t: Event)
    ensures EndsTheTurn([e] + rest, t) <==> if Ends(e) then EndsWith(e, t) else EndsTheTurn(rest, t)
  {
    var all := [e] + rest;
    assert forall i :: 0 <= i < |rest| ==> rest[i] == all[i + 1];
    if Ends(e) {
      assert EndsFirst(all, 0);
    } else {
      assert forall i :: 0 <= i < |rest| ==> (EndsFirst(rest, i) <==> EndsFirst(all, i + 1));
      forall i | 0 <= i < |all| && EndsFirst(all, i) ensures i > 0 && EndsFirst(rest, i - 1) && all[i] == rest[i - 1] {}
    }
  }

  lemma ClosesLater(s: State, before: seq<Offer>, after: State, a: seq<Offer>, b: seq<Offer>, out: seq<Event>, t: Event)
    requires Gives(s, before, after, a) && Closes(after, before + a, b, out, t)
    ensures Closes(s, before, a + b, out, t)
  {
    ShownAppend(before, a, b);
    Regroup(Filter(Unstreamed, s.events), Shown(before, a), Shown(before + a, b));
  }

  lemma {:induction false} DrainTells(s: State, before: seq<Offer>, events: seq<AgentEvent>) returns (t: Event)
    requires Tracks(s, before)
    ensures Closes(s, before, Offers(events), Drain(s, events).events, t)
    decreases |events|
  {
    if events == [] {
      t := TurnCompleted;
      GivesNothing(s, before);
      TerminalCloses(s, before, s, [], TurnCompleted);
    } else {
      var e, rest := events[0], events[1..];
      var after := EventStep(s, e).0;
      EndsIff(e);
      FlowIsFixed(s, e);
      if Ends(e) {
        t := LastEventTells(s, before, e);
        assert Offers(events) == EventOffers(e) + [] == EventOffers(e);
      } else {
        assert Gives(s, before, after, EventOffers(e)) by { EventGives(s, before, e); }
        t := DrainTells(after, before + EventOffers(e), rest);
        ClosesLater(s, before, after, EventOffers(e), Offers(rest), Drain(after, rest).events, t);
      }
    }
  }

  lemma LastEventEnds(s: State, e: AgentEvent)
    requires Ends(e)
    ensures var (after, flow) := EventStep(s, e);
      var out := (if flow.Broke? then Emit(after, Error(flow.error)) else after).events;
      flow != GoOn && out != [] && EndsWith(e, out[|out| - 1])
  {
  }

  /** The last event is the terminal the incoming events ask for. */
  lemma {:induction false} DrainEndsWith(s: State, events: seq<AgentEvent>)
    ensures var out := Drain(s, events).events; out != [] && EndsTheTurn(events, out[|out| - 1])
    decreases |events|
  {
    if events != [] {
      var e, rest := events[0], events[1..];
      var out := Drain(s, events).events;
      EndsIff(e);
      FlowIsFixed(s, e);
      if Ends(e) {
        LastEventEnds(s, e);
      } else {
        DrainEndsWith(EventStep(s, e).0, rest);
      }
      assert events == [e] + rest;
      NextEnds(e, rest, out[|out| - 1]);
    }
  }

  function UserShown(userText: Option<string>): seq<Event> {
    if userText.Some? then [UserMessage(userText.value)] else []
  }

  /** But for messages completed from streamed frames, which come in between, the transcript is
      the user's message, what is shown of the offers, and the terminal event. */
  ghost predicate Tells(out: seq<Event>, userText: Option<string>, offers: seq<Offer>, t: Event) {
    Terminal(t) && Filter(Unstreamed, out) == UserShown(userText) + Shown([], offers) + [t]
  }

  lemma ClosesTells(s: State, offers: seq<Offer>, out: seq<Event>, userText: Option<string>, t: Event)
    requires Closes(s, [], offers, out, t) && Filter(Unstreamed, s.events) == UserShown(userText)
    ensures Tells(out, userText, offers, t)
  {
  }

  /** Every turn, told by its incoming events alone: what is shown of their offers, in their
      order and with all they carry, and one terminal event. */
  lemma TurnIsTold(userText: Option<string>, partial: string, events: seq<AgentEvent>) returns (t: Event)
    ensures Tells(Drain(Begin(userText, partial), events).events, userText, Offers(events), t)
  {
    var s := Begin(userText, partial);
    BeginTracks(userText, partial);
    t := DrainTells(s, [], events);
    ClosesTells(s, Offers(events), Drain(s, events).events, userText, t);
  }

  lemma BeginTracks(userText: Option<string>, partial: string)
    ensures var s := Begin(userText, partial);
      Tracks(s, []) && Filter(Unstreamed, s.events) == UserShown(userText)
  {
    if userText.Some? { FilterOne(Unstreamed, UserMessage(userText.value)); }
  }

  predicate StreamEnds(e: AgentEvent, end: StreamEnd) {
    e.failure == NoFailure && !e.interrupted && e.output.Stream? && e.output.end == end
  }

  /** The event decides the terminal: approval exactly for an interrupt without a failure,
      cancelled with its reason for the three cancellations, an error exactly for that error. */
  ghost predicate Decides(e: AgentEvent, t: Event) {
    (t == ApprovalRequired <==> e.failure == NoFailure && e.interrupted)
    && (t == Cancelled("stream interrupted") <==> StreamEnds(e, ContextCut))
    && (t == Cancelled("execution cancelled")
        <==> e.failure in [AgentCancelled, ContextCancelled] || StreamEnds(e, Torn))
    && forall error :: t == Error(error) <==> e.failure == Failed(error) || StreamEnds(e, StreamFailed(error))
  }

  lemma EndsWithDecides(e: AgentEvent, t: Event)
    requires Ends(e) && EndsWith(e, t)
    ensures t != TurnCompleted && Decides(e, t)
  {
    assert |"stream interrupted"| != |"execution cancelled"|;
  }

  lemma DecidedByFirst(events: seq<AgentEvent>, t: Event)
    requires EndsTheTurn(events, t)
    ensures t == TurnCompleted <==> forall i :: 0 <= i < |events| ==> !Ends(events[i])
    ensures forall i :: 0 <= i < |events| && EndsFirst(events, i) ==> Decides(events[i], t)
  {
    forall i | 0 <= i < |events| && EndsFirst(events, i) ensures t != TurnCompleted && Decides(events[i], t) {
      EndsWithDecides(events[i], t);
    }
    if i: nat :| i < |events| && Ends(events[i]) {
      var k := FirstEnd(events, i);
      assert t != TurnCompleted;
    }
  }

  /** Which terminal event a turn ends with: it is completed exactly when all its events go on,
      and otherwise the first own event that does not decides. */
  lemma TerminalIff(userText: Option<string>, partial: string, events: seq<AgentEvent>) returns (t: Event)
    ensures var out := Drain(Begin(userText, partial), events).events; out != [] && t == out[|out| - 1]
    ensures t == TurnCompleted <==> forall i :: 0 <= i < |events| ==> !Ends(events[i])
    ensures forall i :: 0 <= i < |events| && EndsFirst(events, i) ==> Decides(events[i], t)
  {
    var out := Drain(Begin(userText, partial), events).events;
    DrainEndsWith(Begin(userText, partial), events);
    t := out[|out| - 1];
    DecidedByFirst(events, t);
  }

  lemma {:induction false} FirstEnd(events: seq<AgentEvent>, i: nat) returns (k: nat)
    requires i < |events| && Ends(events[i])
    ensures k <= i && EndsFirst(events, k)
  {
    if j: nat :| j < i && Ends(events[j]) {
      k := FirstEnd(events, j);
    } else {
      k := i;
    }
  }

  lemma {:induction false} ShownOrigin(before: seq<Offer>, offers: seq<Offer>, e: Event) returns (k: nat)
    requires e in Shown(before, offers)
    ensures k < |offers| && offers[k].event == e && Heard(before + offers[..k], offers[k])
    decreases |offers|
  {
    if Heard(before, offers[0]) && e == offers[0].event {
      k := 0;
      assert before + offers[..0] == before;
    } else {
      k := ShownOrigin(before + [offers[0]], offers[1..], e);
      assert before + [offers[0]] + offers[1..][..k] == before + offers[..k + 1];
      k := k + 1;
    }
  }

  lemma Between(out: seq<Event>, userText: Option<string>, offers: seq<Offer>, t: Event, e: Event)
    requires Tells(out, userText, offers, t) && e in out && Unstreamed(e) && !e.UserMessage? && e != t
    ensures e in Shown([], offers)
  {
    assert e in Filter(Unstreamed, out);
  }

  /** A call is shown started as it was first mentioned: with the arguments of that mention, and
      with none when a span mentions it first, whatever is learnt of them later. */
  lemma StartedAsFirstMentioned(userText: Option<string>, partial: string, events: seq<AgentEvent>, e: Event)
      returns (k: nat)
    requires e in Drain(Begin(userText, partial), events).events && e.ToolCallStarted?
    ensures k < |Offers(events)| && Offers(events)[k] == Once(e)
    ensures forall j :: 0 <= j < k ==> !SameCall(Offers(events)[j], Once(e))
  {
    var out, offers := Drain(Begin(userText, partial), events).events, Offers(events);
    var t := TurnIsTold(userText, partial, events);
    Between(out, userText, offers, t, e);
    k := FirstShown(offers, e);
    StartsAreOnce(events, k);
  }

  lemma FirstShown(offers: seq<Offer>, e: Event) returns (k: nat)
    requires e in Shown([], offers)
    ensures k < |offers| && offers[k].event == e
    ensures offers[k].Once? ==> forall j :: 0 <= j < k ==> !SameCall(offers[j], Once(e))
  {
    k := ShownOrigin([], offers, e);
    assert [] + offers[..k] == offers[..k];
    forall j | 0 <= j < k && offers[k].Once? ensures !SameCall(offers[j], Once(e)) { assert offers[j] in offers[..k]; }
  }

  lemma {:induction false} FramesStartOnce(frames: seq<Frame>, o: Offer)
    requires o in FramesOffers(frames) && o.event.ToolCallStarted?
    ensures o.Once?
  {
    if o in FrameOffers(frames[0]) {
      if o in Map(AskOffer, frames[0].calls) { var c := MapOrigin(AskOffer, frames[0].calls, o); }
    } else {
      FramesStartOnce(frames[1..], o);
    }
  }

  lemma EventStartsOnce(e: AgentEvent, o: Offer)
    requires o in EventOffers(e) && o.event.ToolCallStarted?
    ensures o.Once?
  {
    match e.output
    case NoOutput =>
    case Stream(frames, _) => if o in FramesOffers(frames) { FramesStartOnce(frames, o); }
    case Whole(_, _, _, calls, results) =>
      if o in Map(AskOffer, calls) { var c := MapOrigin(AskOffer, calls, o); }
      if o in Map(AnswerOffer, results) { var r := MapOrigin(AnswerOffer, results, o); }
  }

  lemma {:induction false} StartsAreOnce(events: seq<AgentEvent>, k: nat)
    requires k < |Offers(events)| && Offers(events)[k].event.ToolCallStarted?
    ensures Offers(events)[k].Once?
  {
    var n := |EventOffers(events[0])|;
    if k < n {
      EventStartsOnce(events[0], Offers(events)[k]);
    } else {
      StartsAreOnce(events[1..], k - n);
    }
  }

  // ---------------------------------------------------------------- who speaks

  /** Completed messages are a user's, a tool's or the assistant's, and say something. */
  ghost predicate Speaks(events: seq<Event>) {
    forall e :: e in events && e.MessageCompleted? ==> e.role in ["user", "tool", "assistant"] && e.content != ""
  }

  lemma {:induction false} CallsSpeak(s: State, calls: seq<Call>)
    requires Speaks(s.events)
    ensures Speaks(Calls(s, calls).events)
    decreases |calls|
  {
    if calls != [] {
      var c := calls[0];
      var noted := if c.args != "" then s.(args := s.args[c.id := c.args]) else s;
      CallsSpeak(Start(noted, c.id, c.name, c.args), calls[1..]);
    }
  }

  lemma {:induction false} ResultsSpeak(s: State, results: seq<CallResult>)
    requires Speaks(s.events)
    ensures Speaks(Results(s, results).events)
    decreases |results|
  {
    if results != [] { ResultsSpeak(Finish(s, results[0]), results[1..]); }
  }

  lemma {:induction false} FramesSpeak(s: State, frames: seq<Frame>)
    requires Speaks(s.events)
    ensures Speaks(Frames(s, frames).events)
    decreases |frames|
  {
    if frames != [] {
      CallsSpeak(ReasoningStep(TextStep(s, frames[0].text), frames[0].reasoning), frames[0].calls);
      FramesSpeak(FrameStep(s, frames[0]), frames[1..]);
    }
  }

  lemma EmitSpeaks(s: State, e: Event)
    requires Speaks(s.events)
    requires e.MessageCompleted? ==> e.role in ["user", "tool", "assistant"] && e.content != ""
    ensures Speaks(Emit(s, e).events)
  {
  }

  lemma StreamSpeaks(s: State, frames: seq<Frame>, end: StreamEnd)
    requires Speaks(s.events)
    ensures Speaks(EndStream(Frames(s, frames), end).0.events)
  {
    var t := Frames(s, frames);
    FramesSpeak(s, frames);
    match end
    case Eof =>
      if t.text != "" { EmitSpeaks(t, MessageCompleted(true, "assistant", t.text, t.reasoning)); }
    case Torn => EmitSpeaks(t, Cancelled("execution cancelled"));
    case ContextCut =>
      var marked := if t.text == "" then t else Emit(t, MessageCompleted(true, "assistant", t.text, ""));
      if t.text != "" { EmitSpeaks(t, MessageCompleted(true, "assistant", t.text, "")); }
      EmitSpeaks(marked, Cancelled("stream interrupted"));
    case StreamFailed(error) =>
  }

  lemma WholeSpeaks(s: State, m: Output)
    requires m.Whole? && Speaks(s.events)
    ensures Speaks(WholeMessage(s, m).events)
  {
    var role := if m.role == "user" then "user" else if m.role == "tool" then "tool" else "assistant";
    var reasoning := if role == "assistant" then m.reasoning else "";
    var told := Results(Calls(s, m.calls), m.results);
    var thought := if reasoning == "" then told else Emit(told, ReasoningDelta(false, reasoning));
    assert Speaks(told.events) by {
      CallsSpeak(s, m.calls);
      ResultsSpeak(Calls(s, m.calls), m.results);
    }
    if reasoning != "" { EmitSpeaks(told, ReasoningDelta(false, reasoning)); }
    if m.content != "" { EmitSpeaks(thought, MessageCompleted(false, role, m.content, reasoning)); }
  }

  lemma SpanSpeaks(s: State, span: Span)
    requires Speaks(s.events)
    ensures Speaks(SpanStep(s, span).events)
  {
    match span
    case NoSpan =>
    case ToolStart(id, name) => EmitSpeaks(s, ToolCallStarted(id, name, if id in s.args then s.args[id] else ""));
    case ToolEnd(id, name) => EmitSpeaks(s, ToolCallFinished(id, name, ""));
    case Replaced => EmitSpeaks(s, ContextCompacted);
  }

  lemma EventSpeaks(s: State, e: AgentEvent)
    requires Speaks(s.events)
    ensures Speaks(EventStep(s, e).0.events)
  {
    EmitSpeaks(s, Cancelled("execution cancelled"));
    EmitSpeaks(s, ApprovalRequired);
    match e.output
    case NoOutput => SpanSpeaks(s, e.span);
    case Stream(frames, end) =>
      StreamSpeaks(s, frames, end);
      SpanSpeaks(EndStream(Frames(s, frames), end).0, e.span);
    case Whole(_, _, _, _, _) =>
      WholeSpeaks(s, e.output);
      SpanSpeaks(WholeMessage(s, e.output), e.span);
  }

  /** In every turn. */
  lemma {:induction false} EveryMessageSpeaks(s: State, events: seq<AgentEvent>)
    requires Speaks(s.events)
    ensures Speaks(Drain(s, events).events)
    decreases |events|
  {
    if events != [] {
      var (after, flow) := EventStep(s, events[0]);
      EventSpeaks(s, events[0]);
      if flow == GoOn { EveryMessageSpeaks(after, events[1..]); }
    }
  }
}
