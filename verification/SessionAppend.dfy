/** Appending a batch of events to the session log: the checks, and the sequence numbers that
    make the log one total order. */
module SessionAppend {
  import opened Sequences
  import opened HistoryWindow

  /** An event as the agent hands it over; a nil event is `Nil`. */
  datatype Incoming<T> = Nil | Incoming(id: string, body: T)

  datatype Outcome = Appended | InvalidEventId | DuplicateEventId | StoreFailed

  /** What the first look at a batch finds: an event without an id, or one id twice. */
  function Fault<T>(events: seq<Incoming<T>>, seen: set<string>): (r: Outcome)
    ensures r != StoreFailed
    decreases |events|
  {
    if events == [] then Appended
    else if events[0].Nil? || events[0].id == "" then InvalidEventId
    else if events[0].id in seen then DuplicateEventId
    else Fault(events[1..], seen + {events[0].id})
  }

  function NextSeq<T>(rows: seq<Row<T>>): (next: int)
    ensures forall i :: 0 <= i < |rows| ==> rows[i].seqNo < next
    ensures if rows == [] then next == 0 else exists i :: 0 <= i < |rows| && rows[i].seqNo == next - 1
  {
    if rows == [] then 0
    else
      var n, rest := rows[0].seqNo + 1, NextSeq(rows[1..]);
      assert rows[0].seqNo == n - 1;
      if |rows| == 1 || n >= rest then n
      else
        assert exists i :: 0 <= i < |rows| && rows[i].seqNo == rest - 1 by {
          var j :| 0 <= j < |rows| - 1 && rows[1..][j].seqNo == rest - 1;
          assert rows[j + 1].seqNo == rest - 1;
        }
        rest
  }

  /** The batch with consecutive sequence numbers from `next` on. */
  function Numbered<T>(events: seq<Incoming<T>>, next: int): seq<Row<T>>
    requires forall i :: 0 <= i < |events| ==> events[i].Incoming?
  {
    seq(|events|, i requires 0 <= i < |events| => Row(events[i].id, next + i, events[i].body))
  }

  /** The batch can be appended to the log as it is. */
  ghost predicate Acceptable<T>(events: seq<Incoming<T>>, rows: seq<Row<T>>) {
    (forall i :: 0 <= i < |events| ==> events[i].Incoming? && events[i].id != "")
    && (forall i, j :: 0 <= i < j < |events| && events[i].Incoming? && events[j].Incoming? ==>
          events[i].id != events[j].id)
    && (forall i, j :: 0 <= i < |events| && events[i].Incoming? && 0 <= j < |rows| ==> events[i].id != rows[j].id)
  }

  lemma {:induction false} FaultMeans<T>(events: seq<Incoming<T>>, seen: set<string>)
    ensures Fault(events, seen) == Appended
       <==> (forall i :: 0 <= i < |events| ==> events[i].Incoming? && events[i].id != "" && events[i].id !in seen)
            && (forall i, j :: 0 <= i < j < |events| && events[i].Incoming? && events[j].Incoming? ==>
                  events[i].id != events[j].id)
    decreases |events|
  {
    if events != [] && events[0].Incoming? && events[0].id != "" && events[0].id !in seen {
      var rest, more := events[1..], seen + {events[0].id};
      FaultMeans(rest, more);
      assert forall i :: 0 <= i < |rest| ==> rest[i] == events[i + 1];
      assert forall i :: 0 < i < |events| ==> events[i] == rest[i - 1];
    }
  }

  /** An accepted batch keeps the log one strict order with unique ids, and so does any part of
      it the store takes before it fails. */
  lemma AppendKeepsTheLog<T>(rows: seq<Row<T>>, events: seq<Incoming<T>>, stored: nat)
    requires Log(rows) && Strict(rows) && Acceptable(events, rows) && stored <= |events|
    ensures Log(rows + Numbered(events, NextSeq(rows))[..stored])
    ensures Strict(rows + Numbered(events, NextSeq(rows))[..stored])
  {
    var batch := Numbered(events, NextSeq(rows))[..stored];
    var log := rows + batch;
    forall i | 0 <= i < |log| ensures log[i].id != "" {
      assert i >= |rows| ==> log[i] == batch[i - |rows|];
    }
    forall i, j | 0 <= i < j < |log| ensures log[i].id != log[j].id && log[i].seqNo < log[j].seqNo {
      if j >= |rows| {
        assert log[j] == batch[j - |rows|];
        assert i >= |rows| ==> log[i] == batch[i - |rows|];
      }
    }
  }

  class SessionLog<T(==)> {
    var rows: seq<Row<T>>

    constructor ()
      ensures rows == [] && Log(rows) && Strict(rows)
    {
      rows := [];
    }

    /** `stored` is how many of the batch's rows the store takes before it fails. */
    method AppendEvents(events: seq<Incoming<T>>, stored: nat) returns (r: Outcome)
      modifies this
      ensures r == Appended || r == StoreFailed <==> Acceptable(events, old(rows))
      ensures Fault(events, {}) != Appended ==> r == Fault(events, {})
      ensures Fault(events, {}) == Appended && !Acceptable(events, old(rows)) ==> r == DuplicateEventId
      ensures if r == Appended then
                Acceptable(events, old(rows)) && rows == old(rows) + Numbered(events, NextSeq(old(rows)))
              else if r == StoreFailed then
                Acceptable(events, old(rows)) && stored < |events|
                && rows == old(rows) + Numbered(events, NextSeq(old(rows)))[..stored]
              else rows == old(rows)
      ensures old(Log(rows) && Strict(rows)) ==> Log(rows) && Strict(rows)
    {
      var fault := CheckBatch(events);
      FaultMeans(events, {});
      if fault != Appended {
        return fault;
      }
      var batch := NumberBatch(rows, events);
      if batch.None? {
        return DuplicateEventId;
      }
      if Log(rows) && Strict(rows) {
        AppendKeepsTheLog(rows, events, if stored < |events| then stored else |events|);
      }
      assert batch.value[..|events|] == batch.value;
      if stored < |events| {
        rows := rows + batch.value[..stored];
        return StoreFailed;
      }
      rows := rows + batch.value;
      return Appended;
    }
  }

  method NumberBatch<T(==)>(rows: seq<Row<T>>, events: seq<Incoming<T>>) returns (r: Option<seq<Row<T>>>)
    requires Fault(events, {}) == Appended
    ensures r.Some? <==> Acceptable(events, rows)
    ensures r.Some? ==> r.value == Numbered(events, NextSeq(rows))
  {
    FaultMeans(events, {});
    var next := NextSeq(rows);
    var batch: seq<Row<T>> := [];
    for i := 0 to |events|
      invariant |batch| == i
      invariant forall j :: 0 <= j < i ==> batch[j] == Row(events[j].id, next + j, events[j].body)
      invariant forall j, k :: 0 <= j < i && 0 <= k < |rows| ==> events[j].id != rows[k].id
    {
      var at := Find(rows, events[i].id);
      if at < |rows| {
        return None;
      }
      batch := batch + [Row(events[i].id, next + i, events[i].body)];
    }
    assert batch == Numbered(events, next);
    r := Some(batch);
  }

  method CheckBatch<T(==)>(events: seq<Incoming<T>>) returns (r: Outcome)
    ensures r == Fault(events, {})
  {
    var seen := {};
    for i := 0 to |events|
      invariant Fault(events[i..], seen) == Fault(events, {})
    {
      assert events[i..][0] == events[i] && events[i..][1..] == events[i + 1..];
      if events[i].Nil? || events[i].id == "" {
        return InvalidEventId;
      }
      if events[i].id in seen {
        return DuplicateEventId;
      }
      seen := seen + {events[i].id};
    }
    assert events[|events|..] == [];
    r := Appended;
  }

  /** Two appends that read the log before either wrote give their first rows one sequence
      number: that no session is ever appended to twice at once is an assumption. */
  lemma RacingAppendsTie<T>(rows: seq<Row<T>>, a: seq<Incoming<T>>, b: seq<Incoming<T>>)
    requires a != [] && b != [] && Acceptable(a, rows) && Acceptable(b, rows)
    ensures !Strict(rows + Numbered(a, NextSeq(rows)) + Numbered(b, NextSeq(rows)))
  {
    var first, second := Numbered(a, NextSeq(rows)), Numbered(b, NextSeq(rows));
    var log := rows + first + second;
    assert log[|rows|] == first[0] && log[|rows| + |first|] == second[0];
  }
}
