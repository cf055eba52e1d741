/** A run's task-progress hub: per-task cursors over append-only event logs, fanned to
    subscribers as numbered record frames and one terminal frame per task. */
module TaskProgress {
  import opened Sequences
  import opened EventStream
  import opened Text

  datatype Record =
    | TextRecord(text: string)
    | CallRecord(name: string, args: string)
    | ResultRecord(name: string, result: string)

  datatype Block =
    | NilBlock
    | CallBlock(callName: string, args: string)
    | ResultBlock(resultName: string, parts: seq<string>)
    | LineBlock(line: string)

  /** What parsing an event's data as a transcript record yields. */
  datatype Shape = Unparsed | Message(blocks: seq<Block>)

  datatype Event = Event(data: string, shape: Shape)

  datatype Outcome = Completed | Failed | Canceled

  datatype Frame =
    | RecordFrame(taskId: string, kind: string, sequence: nat, record: Record)
    | TerminalFrame(taskId: string, kind: string, outcome: Outcome)

  // ---------------------------------------------------------------- decoding

  function Concat(parts: seq<string>): string {
    if parts == [] then "" else parts[0] + Concat(parts[1..])
  }

  function BlockRecords(b: Block): seq<Record> {
    match b
    case NilBlock => []
    case CallBlock(name, args) => [CallRecord(name, args)]
    case ResultBlock(name, parts) => [ResultRecord(name, Concat(parts))]
    case LineBlock(line) => if line == "" then [] else [TextRecord(line)]
  }

  function Expand(blocks: seq<Block>): seq<Record> {
    if blocks == [] then [] else BlockRecords(blocks[0]) + Expand(blocks[1..])
  }

  /** The records of one event: none for a blank payload, the raw text for a shell chunk or
      a payload without content of its own, else its blocks in order. */
  function Decode(kind: string, e: Event): (rs: seq<Record>)
    ensures rs == [] <==> Blank(e.data)
  {
    if Blank(e.data) then []
    else if kind == "shell" || e.shape == Unparsed || Expand(e.shape.blocks) == [] then [TextRecord(e.data)]
    else Expand(e.shape.blocks)
  }

  /** The blocks that make a record. */
  predicate Bearing(b: Block) {
    b.CallBlock? || b.ResultBlock? || (b.LineBlock? && b.line != "")
  }

  /** The record tells its block: a call's name and arguments, a result's name with the text of
      its parts, a line. */
  ghost predicate Carries(r: Record, b: Block) {
    match r
    case TextRecord(text) => b == LineBlock(text)
    case CallRecord(name, args) => b == CallBlock(name, args)
    case ResultRecord(name, result) => b.ResultBlock? && b.resultName == name && result == Flatten(b.parts)
  }

  lemma {:induction false} PartsJoin(parts: seq<string>)
    ensures Concat(parts) == Flatten(parts)
  {
    if parts != [] { PartsJoin(parts[1..]); }
  }

  lemma {:induction false} ExpandCarries(blocks: seq<Block>)
    ensures var records, bearing := Expand(blocks), Filter(Bearing, blocks);
      |records| == |bearing| && forall i :: 0 <= i < |records| ==> Carries(records[i], bearing[i])
  {
    if blocks != [] {
      ExpandCarries(blocks[1..]);
      if blocks[0].ResultBlock? { PartsJoin(blocks[0].parts); }
    }
  }

  /** What the records of an event carry: the payload as it is for a shell chunk and for a
      payload without a bearing block, and otherwise each bearing block's own content. */
  lemma RecordsCarry(kind: string, e: Event)
    requires !Blank(e.data)
    ensures var records := Decode(kind, e);
      if kind == "shell" || e.shape == Unparsed || Filter(Bearing, e.shape.blocks) == [] then
        records == [TextRecord(e.data)]
      else
        |records| == |Filter(Bearing, e.shape.blocks)|
        && forall i :: 0 <= i < |records| ==> Carries(records[i], Filter(Bearing, e.shape.blocks)[i])
  {
    if e.shape.Message? { ExpandCarries(e.shape.blocks); }
  }

  function Records(kind: string, log: seq<Event>): seq<Record> {
    if log == [] then [] else Decode(kind, log[0]) + Records(kind, log[1..])
  }

  lemma {:induction false} RecordsAppend(kind: string, a: seq<Event>, b: seq<Event>)
    ensures Records(kind, a + b) == Records(kind, a) + Records(kind, b)
  {
    if a == [] {
      assert a + b == b;
    } else {
      assert (a + b)[1..] == a[1..] + b;
      RecordsAppend(kind, a[1..], b);
    }
  }

  // ---------------------------------------------------------------- reading past a cursor

  /** The frames of records `from` onward; sequence numbers are 1-based ordinals. */
  function Frames(t: string, kind: string, records: seq<Record>, from: nat): (fs: seq<Frame>)
    ensures |fs| == if from <= |records| then |records| - from else 0
    ensures forall i :: 0 <= i < |fs| ==> fs[i] == RecordFrame(t, kind, from + i + 1, records[from + i])
  {
    seq(if from <= |records| then |records| - from else 0,
        i requires 0 <= i < |records| - from => RecordFrame(t, kind, from + i + 1, records[from + i]))
  }

  method DecodeRecords(kind: string, e: Event) returns (records: seq<Record>)
    ensures records == Decode(kind, e)
  {
    if TrimSpace(e.data) == "" {
      return [];
    }
    if kind == "shell" || e.shape.Unparsed? {
      return [TextRecord(e.data)];
    }
    records := [];
    var blocks := e.shape.blocks;
    assert blocks[0..] == blocks;
    for i := 0 to |blocks|
      invariant Expand(blocks) == records + Expand(blocks[i..])
    {
      assert blocks[i..][1..] == blocks[i + 1..];
      var found := BlockRecords(blocks[i]);
      Regroup(records, found, Expand(blocks[i + 1..]));
      records := records + found;
    }
    assert Expand(blocks[|blocks|..]) == [];
    if |records| == 0 {
      records := [TextRecord(e.data)];
    }
  }

  lemma FramesOfMore(t: string, kind: string, a: seq<Record>, b: seq<Record>, skip: nat)
    requires skip <= |a|
    ensures Frames(t, kind, a + b, skip) == Frames(t, kind, a, skip) + Frames(t, kind, a + b, |a|)
  {
  }

  lemma FramesOfOneMore(t: string, kind: string, records: seq<Record>, r: Record, skip: nat)
    ensures Frames(t, kind, records + [r], skip) ==
            Frames(t, kind, records, skip)
            + (if |records| >= skip then [RecordFrame(t, kind, |records| + 1, r)] else [])
  {
  }

  /** The frames of one event's records that lie past `skip`. */
  method FrameRecords(t: string, kind: string, records: seq<Record>, skip: nat, ghost before: seq<Record>,
                      frames: seq<Frame>, total: nat)
    returns (frames': seq<Frame>, total': nat)
    requires total == |before| && frames == Frames(t, kind, before, skip)
    ensures total' == |before + records| && frames' == Frames(t, kind, before + records, skip)
  {
    frames', total' := frames, total;
    ghost var seen := before;
    for j := 0 to |records|
      invariant seen == before + records[..j]
      invariant total' == |seen| && frames' == Frames(t, kind, seen, skip)
    {
      FramesOfOneMore(t, kind, seen, records[j], skip);
      if total' >= skip {
        frames' := frames' + [RecordFrame(t, kind, total' + 1, records[j])];
      }
      total' := total' + 1;
      seen := seen + [records[j]];
    }
    assert records[..|records|] == records;
  }

  /** One page's events: the frames past `skip`, and the running total. */
  method ReadPage(t: string, kind: string, page: seq<Event>, skip: nat, ghost before: seq<Record>,
                  frames: seq<Frame>, total: nat)
    returns (frames': seq<Frame>, total': nat)
    requires total == |before| && frames == Frames(t, kind, before, skip)
    ensures total' == |before + Records(kind, page)|
    ensures frames' == Frames(t, kind, before + Records(kind, page), skip)
  {
    frames', total' := frames, total;
    ghost var seen := before;
    assert page[0..] == page;
    for i := 0 to |page|
      invariant seen + Records(kind, page[i..]) == before + Records(kind, page)
      invariant total' == |seen| && frames' == Frames(t, kind, seen, skip)
    {
      assert page[i..][1..] == page[i + 1..];
      var records := DecodeRecords(kind, page[i]);
      frames', total' := FrameRecords(t, kind, records, skip, seen, frames', total');
      Regroup(seen, Decode(kind, page[i]), Records(kind, page[i + 1..]));
      seen := seen + Decode(kind, page[i]);
    }
    assert seen + Records(kind, page[|page|..]) == seen;
  }

  lemma RecordsOfPage(kind: string, log: seq<Event>, from: nat, to: nat)
    requires from <= to <= |log|
    ensures Records(kind, log[..to]) == Records(kind, log[..from]) + Records(kind, log[from..to])
  {
    var a, b := log[..from], log[from..to];
    assert log[..to] == a + b;
    RecordsAppend(kind, a, b);
  }

  /** Reads a task's log snapshot page by page past the first `skip` records: exactly the
      frames of the records after them, and the log's record count, for any page size. */
  method ReadTaskProgressFrames(log: seq<Event>, t: string, kind: string, skip: nat, limit: nat)
    returns (frames: seq<Frame>, total: nat)
    requires limit >= 1
    ensures frames == Frames(t, kind, Records(kind, log), skip)
    ensures total == |Records(kind, log)|
  {
    frames, total := [], 0;
    var cursor := 0;
    ghost var seen: seq<Record> := [];
    while cursor < |log|
      invariant 0 <= cursor <= |log|
      invariant seen == Records(kind, log[..cursor])
      invariant total == |seen| && frames == Frames(t, kind, seen, skip)
    {
      var next := Min(cursor + limit, |log|);
      var page := log[cursor..next];
      frames, total := ReadPage(t, kind, page, skip, seen, frames, total);
      RecordsOfPage(kind, log, cursor, next);
      seen := seen + Records(kind, page);
      cursor := next;
    }
    assert log[..cursor] == log;
  }

  /** A reader polling a growing log from its last total: the log at each poll is the one
      before it plus a batch of events. */
  function Poll(t: string, kind: string, records: seq<Record>, growth: seq<seq<Event>>, skip: nat): seq<Frame>
    decreases |growth|
  {
    if growth == [] then Frames(t, kind, records, skip)
    else Frames(t, kind, records, skip)
         + Poll(t, kind, records + Records(kind, growth[0]), growth[1..], |records|)
  }

  lemma {:induction false} PollReads(t: string, kind: string, records: seq<Record>, growth: seq<seq<Event>>, skip: nat)
    requires skip <= |records|
    ensures Poll(t, kind, records, growth, skip)
         == Frames(t, kind, records + Records(kind, Flatten(growth)), skip)
    decreases |growth|
  {
    if growth == [] {
      assert records + [] == records;
    } else {
      var batch, later := Records(kind, growth[0]), Records(kind, Flatten(growth[1..]));
      PollReads(t, kind, records + batch, growth[1..], |records|);
      RecordsAppend(kind, growth[0], Flatten(growth[1..]));
      Regroup(records, batch, later);
      FramesOfMore(t, kind, records, batch + later, skip);
    }
  }

  /** However a log grows between polls, resuming each poll at the previous total delivers
      what one read at the end delivers: every record past `skip` once, in order. */
  lemma PollingIsOneRead(t: string, kind: string, log: seq<Event>, growth: seq<seq<Event>>, skip: nat)
    requires skip <= |Records(kind, log)|
    ensures Poll(t, kind, Records(kind, log), growth, skip)
         == Frames(t, kind, Records(kind, log + Flatten(growth)), skip)
  {
    PollReads(t, kind, Records(kind, log), growth, skip);
    RecordsAppend(kind, log, Flatten(growth));
  }
}
