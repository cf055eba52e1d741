/** Reading the append-only session log in windows: forward after a cursor, or backward
    before one, and stitching the windows together again. */
module HistoryWindow {
  import opened Sequences

  datatype Row<T> = Row(id: string, seqNo: int, body: T)

  datatype Error = UnknownCursor(id: string)

  /** One window, always oldest first. `next` is the forward cursor, `oldest` the backward
      one. */
  datatype Page<T> = Page(rows: seq<Row<T>>, next: string, oldest: string, hasMore: bool)

  // ---------------------------------------------------------------- the store

  /** Rows in the store's total order. Event ids are unique in a session and not empty. */
  ghost predicate Log<T>(log: seq<Row<T>>) {
    (forall i, j :: 0 <= i < j < |log| ==> log[i].id != log[j].id && log[i].seqNo <= log[j].seqNo)
    && forall i :: 0 <= i < |log| ==> log[i].id != ""
  }

  /** No two rows share a sequence number. */
  ghost predicate Strict<T>(log: seq<Row<T>>) {
    forall i, j :: 0 <= i < j < |log| ==> log[i].seqNo < log[j].seqNo
  }

  function Find<T>(log: seq<Row<T>>, id: string): (i: nat)
    ensures i <= |log|
    ensures i < |log| ==> log[i].id == id
    ensures i == |log| ==> forall j :: 0 <= j < |log| ==> log[j].id != id
  {
    if log == [] then 0 else if log[0].id == id then 0 else 1 + Find(log[1..], id)
  }

  function Below<T>(log: seq<Row<T>>, bound: int): seq<Row<T>> {
    if log == [] then [] else (if log[0].seqNo < bound then [log[0]] else []) + Below(log[1..], bound)
  }

  function Above<T>(log: seq<Row<T>>, bound: int): seq<Row<T>> {
    if log == [] then [] else (if log[0].seqNo > bound then [log[0]] else []) + Above(log[1..], bound)
  }

  function Reversed<T>(s: seq<T>): (r: seq<T>)
    ensures |r| == |s|
  {
    seq(|s|, i requires 0 <= i < |s| => s[|s| - 1 - i])
  }

  function Limited<T>(s: seq<T>, limit: int): seq<T> {
    if limit > 0 && |s| > limit then s[..limit] else s
  }

  /** What the store answers, or nothing when the cursor is not in the log. A backward read
      comes newest first. */
  function Load<T>(log: seq<Row<T>>, cursor: string, limit: int, reverse: bool): Option<seq<Row<T>>> {
    if cursor == "" then Some(Limited(if reverse then Reversed(log) else log, limit))
    else
      var i := Find(log, cursor);
      if i == |log| then None
      else if reverse then Some(Limited(Reversed(Below(log, log[i].seqNo)), limit))
      else Some(Limited(Above(log, log[i].seqNo), limit))
  }

  lemma {:induction false} BelowNone<T>(log: seq<Row<T>>, bound: int)
    requires forall j :: 0 <= j < |log| ==> log[j].seqNo >= bound
    ensures Below(log, bound) == []
  {
    if log != [] {
      BelowNone(log[1..], bound);
    }
  }

  lemma {:induction false} BelowIsPrefix<T>(log: seq<Row<T>>, i: nat)
    requires i < |log| && Strict(log)
    ensures Below(log, log[i].seqNo) == log[..i]
  {
    if i == 0 {
      BelowNone(log, log[0].seqNo);
    } else {
      assert log[0].seqNo < log[i].seqNo && log[1..][i - 1] == log[i];
      BelowIsPrefix(log[1..], i - 1);
      assert log[..i] == [log[0]] + log[1..][..i - 1];
    }
  }

  lemma {:induction false} AboveAll<T>(log: seq<Row<T>>, bound: int)
    requires forall j :: 0 <= j < |log| ==> log[j].seqNo > bound
    ensures Above(log, bound) == log
  {
    if log != [] {
      AboveAll(log[1..], bound);
    }
  }

  lemma {:induction false} AboveIsSuffix<T>(log: seq<Row<T>>, i: nat)
    requires i < |log| && Strict(log)
    ensures Above(log, log[i].seqNo) == log[i + 1..]
  {
    if i == 0 {
      AboveAll(log[1..], log[0].seqNo);
    } else {
      assert log[0].seqNo < log[i].seqNo && log[1..][i - 1] == log[i];
      AboveIsSuffix(log[1..], i - 1);
      assert log[i + 1..] == log[1..][i..];
    }
  }

  // ---------------------------------------------------------------- one window

  method ReverseInPlace<T>(rows: array<T>)
    modifies rows
    ensures rows[..] == Reversed(old(rows[..]))
  {
    var i, j := 0, rows.Length - 1;
    while i < j
      invariant 0 <= i && i + j == rows.Length - 1 && i <= j + 1
      invariant forall k :: 0 <= k < i || j < k < rows.Length ==> rows[k] == old(rows[rows.Length - 1 - k])
      invariant forall k :: i <= k <= j ==> rows[k] == old(rows[k])
    {
      rows[i], rows[j] := rows[j], rows[i];
      i, j := i + 1, j - 1;
    }
  }

  method OldestFirst<T>(rows: seq<Row<T>>) returns (r: seq<Row<T>>)
    ensures r == Reversed(rows)
  {
    var window := new Row<T>[|rows|](i requires 0 <= i < |rows| => rows[i]);
    assert window[..] == rows;
    ReverseInPlace(window);
    r := window[..];
  }

  /** The backward window that ends before row `end`, read off the log itself. */
  function Backward<T>(log: seq<Row<T>>, end: nat, limit: int): Page<T>
    requires end <= |log|
  {
    var start := if limit > 0 && end > limit then end - limit else 0;
    Page(log[start..end], "", if start < end then log[start].id else "", start > 0)
  }

  /** The forward window that starts at row `start`. */
  function Forward<T>(log: seq<Row<T>>, start: nat, limit: int): Page<T>
    requires start <= |log|
  {
    var end := if limit > 0 && |log| - start > limit then start + limit else |log|;
    Page(log[start..end], if limit > 0 && end - start == limit then log[end - 1].id else "", "", false)
  }

  /** The window the caller asked for, on a log whose rows have distinct sequence numbers. */
  function Window<T>(log: seq<Row<T>>, cursor: string, limit: int, reverse: bool): Result<Page<T>, Error> {
    var i := if cursor == "" then (if reverse then |log| else 0) else Find(log, cursor);
    if cursor != "" && i == |log| then Err(UnknownCursor(cursor))
    else if reverse then Ok(Backward(log, i, limit))
    else Ok(Forward(log, if cursor == "" then 0 else i + 1, limit))
  }

  /** A backward read asks for one row more than the page to learn whether there is one. */
  function Probe(limit: int, reverse: bool): int {
    if reverse && limit > 0 then limit + 1 else limit
  }

  /** What a window is made of, given the store's answer to the probing read. */
  function FromStore<T>(loaded: seq<Row<T>>, limit: int, reverse: bool): Page<T> {
    if reverse then
      var kept := Limited(loaded, limit);
      Page(Reversed(kept), "", if kept != [] then kept[|kept| - 1].id else "", limit > 0 && |loaded| > limit)
    else Page(loaded, if limit > 0 && |loaded| >= limit then loaded[|loaded| - 1].id else "", "", false)
  }

  lemma StoreBackward<T>(log: seq<Row<T>>, end: nat, limit: int)
    requires end <= |log|
    ensures FromStore(Limited(Reversed(log[..end]), Probe(limit, true)), limit, true) == Backward(log, end, limit)
  {
    var loaded := Limited(Reversed(log[..end]), Probe(limit, true));
    var start := if limit > 0 && end > limit then end - limit else 0;
    assert Reversed(Limited(loaded, limit)) == log[start..end];
  }

  lemma StoreForward<T>(log: seq<Row<T>>, start: nat, limit: int)
    requires start <= |log|
    ensures FromStore(Limited(log[start..], limit), limit, false) == Forward(log, start, limit)
  {
    var end := if limit > 0 && |log| - start > limit then start + limit else |log|;
    assert Limited(log[start..], limit) == log[start..end];
  }

  lemma StoreWindow<T>(log: seq<Row<T>>, cursor: string, limit: int, reverse: bool)
    requires Log(log) && Strict(log)
    ensures match Load(log, cursor, Probe(limit, reverse), reverse)
            case None => Window(log, cursor, limit, reverse) == Err(UnknownCursor(cursor))
            case Some(loaded) => Window(log, cursor, limit, reverse) == Ok(FromStore(loaded, limit, reverse))
  {
    var i := Find(log, cursor);
    if cursor == "" {
      assert log[..|log|] == log && log[0..] == log;
      StoreBackward(log, |log|, limit);
      StoreForward(log, 0, limit);
    } else if i < |log| {
      if reverse {
        BelowIsPrefix(log, i);
        StoreBackward(log, i, limit);
      } else {
        AboveIsSuffix(log, i);
        StoreForward(log, i + 1, limit);
      }
    }
  }

  method Assemble<T>(loaded: seq<Row<T>>, limit: int, reverse: bool) returns (page: Page<T>)
    ensures page == FromStore(loaded, limit, reverse)
  {
    var rows := loaded;
    var next, oldest, hasMore := "", "", false;
    if reverse {
      if limit > 0 && |rows| > limit {
        hasMore := true;
        rows := rows[..limit];
      }
      if |rows| > 0 {
        oldest := rows[|rows| - 1].id;
      }
      rows := OldestFirst(rows);
    } else if limit > 0 && |rows| >= limit {
      next := rows[|rows| - 1].id;
    }
    page := Page(rows, next, oldest, hasMore);
  }

  method History<T>(log: seq<Row<T>>, after: string, before: string, limit: int, reverse: bool)
      returns (r: Result<Page<T>, Error>)
    ensures var cursor := if reverse then before else after;
      match Load(log, cursor, Probe(limit, reverse), reverse)
      case None => r == Err(UnknownCursor(cursor))
      case Some(loaded) => r == Ok(FromStore(loaded, limit, reverse))
  {
    var cursor, ask := after, limit;
    if reverse {
      cursor := before;
      if limit > 0 {
        ask := limit + 1;
      }
    }
    var loaded := Load(log, cursor, ask, reverse);
    if loaded.None? {
      return Err(UnknownCursor(cursor));
    }
    var page := Assemble(loaded.value, limit, reverse);
    r := Ok(page);
  }

  // ---------------------------------------------------------------- stitching

  lemma FindAt<T>(log: seq<Row<T>>, i: nat)
    requires Log(log) && i < |log|
    ensures Find(log, log[i].id) == i
  {
    var j := Find(log, log[i].id);
    assert j < |log| && log[j].id == log[i].id;
  }

  lemma SliceJoins<A>(s: seq<A>, a: nat, b: nat)
    requires a <= b <= |s|
    ensures s[a..b] + s[b..] == s[a..] && s[..a] + s[a..b] == s[..b]
  {
  }

  lemma {:induction false} BelowMembers<T>(log: seq<Row<T>>, bound: int, r: Row<T>)
    ensures r in Below(log, bound) <==> r in log && r.seqNo < bound
  {
    if log != [] { BelowMembers(log[1..], bound, r); }
  }

  lemma {:induction false} AboveMembers<T>(log: seq<Row<T>>, bound: int, r: Row<T>)
    ensures r in Above(log, bound) <==> r in log && r.seqNo > bound
  {
    if log != [] { AboveMembers(log[1..], bound, r); }
  }

  lemma {:induction false} BelowGrows<T>(log: seq<Row<T>>, a: int, b: int)
    requires a <= b
    ensures |Below(log, a)| <= |Below(log, b)| <= |log|
  {
    if log != [] { BelowGrows(log[1..], a, b); }
  }

  lemma {:induction false} BelowLess<T>(log: seq<Row<T>>, a: int, b: int, r: Row<T>)
    requires r in log && a <= r.seqNo < b
    ensures |Below(log, a)| < |Below(log, b)|
  {
    if log[0] == r { BelowGrows(log[1..], a, b); } else { BelowLess(log[1..], a, b, r); }
  }

  lemma {:induction false} AboveGrows<T>(log: seq<Row<T>>, a: int, b: int)
    requires a <= b
    ensures |Above(log, b)| <= |Above(log, a)| <= |log|
  {
    if log != [] { AboveGrows(log[1..], a, b); }
  }

  lemma {:induction false} AboveLess<T>(log: seq<Row<T>>, a: int, b: int, r: Row<T>)
    requires r in log && a < r.seqNo <= b
    ensures |Above(log, b)| < |Above(log, a)|
  {
    if log[0] == r { AboveGrows(log[1..], a, b); } else { AboveLess(log[1..], a, b, r); }
  }

  /** The rows a backward read with this cursor can still reach, or a forward one. */
  function Ahead<T>(log: seq<Row<T>>, cursor: string, reverse: bool): nat {
    if cursor == "" then |log| + 1
    else if Find(log, cursor) == |log| then 0
    else if reverse then |Below(log, log[Find(log, cursor)].seqNo)|
    else |Above(log, log[Find(log, cursor)].seqNo)|
  }

  lemma ReversedMembers<A>(s: seq<A>, x: A)
    ensures x in Reversed(s) <==> x in s
  {
    if i :| 0 <= i < |s| && s[i] == x { assert Reversed(s)[|s| - 1 - i] == x; }
  }

  /** A row is in a window only if it is strictly before the cursor's row, or strictly behind
      it. */
  lemma LoadedRow<T>(log: seq<Row<T>>, cursor: string, limit: int, reverse: bool, r: Row<T>)
    requires Load(log, cursor, limit, reverse).Some? && r in Load(log, cursor, limit, reverse).value
    ensures r in log
    ensures cursor != "" ==>
      var c := log[Find(log, cursor)]; if reverse then r.seqNo < c.seqNo else c.seqNo < r.seqNo
  {
    if cursor == "" {
      ReversedMembers(log, r);
    } else {
      var bound := log[Find(log, cursor)].seqNo;
      BelowMembers(log, bound, r);
      AboveMembers(log, bound, r);
      ReversedMembers(Below(log, bound), r);
    }
  }

  lemma KnownRow<T>(log: seq<Row<T>>, r: Row<T>)
    requires Log(log) && r in log
    ensures r.id != "" && Find(log, r.id) < |log| && log[Find(log, r.id)] == r
  {
    var i :| 0 <= i < |log| && log[i] == r;
    FindAt(log, i);
  }

  /** A page's cursor is a row of the page, and there is less ahead of it. */
  lemma CursorMoves<T>(log: seq<Row<T>>, cursor: string, limit: int, reverse: bool, r: Row<T>)
    requires Log(log) && Load(log, cursor, limit, reverse).Some? && r in Load(log, cursor, limit, reverse).value
    ensures r.id != "" && Find(log, r.id) < |log| && log[Find(log, r.id)] == r
    ensures Ahead(log, r.id, reverse) < Ahead(log, cursor, reverse)
  {
    LoadedRow(log, cursor, limit, reverse, r);
    KnownRow(log, r);
    BelowGrows(log, r.seqNo, r.seqNo);
    AboveGrows(log, r.seqNo, r.seqNo);
    if cursor != "" {
      var bound := log[Find(log, cursor)].seqNo;
      if reverse { BelowLess(log, r.seqNo, bound, r); } else { AboveLess(log, bound, r.seqNo, r); }
    }
  }

  /** All that paging back from a cursor reads, oldest first: page by page until no page says
      that there is more. */
  function ReadBack<T>(log: seq<Row<T>>, cursor: string, limit: int): seq<Row<T>>
    requires Log(log)
    decreases Ahead(log, cursor, true)
  {
    var loaded := Load(log, cursor, Probe(limit, true), true);
    if loaded.None? then []
    else
      var page := FromStore(loaded.value, limit, true);
      if !page.hasMore then page.rows
      else
        CursorMoves(log, cursor, Probe(limit, true), true, loaded.value[limit - 1]);
        ReadBack(log, page.oldest, limit) + page.rows
  }

  function ReadOn<T>(log: seq<Row<T>>, cursor: string, limit: int): seq<Row<T>>
    requires Log(log)
    decreases Ahead(log, cursor, false)
  {
    var loaded := Load(log, cursor, limit, false);
    if loaded.None? then []
    else
      var page := FromStore(loaded.value, limit, false);
      if page.next == "" then page.rows
      else
        CursorMoves(log, cursor, limit, false, loaded.value[|loaded.value| - 1]);
        page.rows + ReadOn(log, page.next, limit)
  }

  method WindowOf<T>(log: seq<Row<T>>, cursor: string, limit: int, reverse: bool) returns (page: Page<T>)
    requires Log(log) && Load(log, cursor, Probe(limit, reverse), reverse).Some?
    ensures page == FromStore(Load(log, cursor, Probe(limit, reverse), reverse).value, limit, reverse)
  {
    var r := History(log, cursor, cursor, limit, reverse);
    page := r.value;
  }

  /** The window of a cursor the log knows. */
  ghost predicate PageAt<T>(log: seq<Row<T>>, cursor: string, limit: int, reverse: bool, page: Page<T>) {
    var loaded := Load(log, cursor, Probe(limit, reverse), reverse);
    loaded.Some? && page == FromStore(loaded.value, limit, reverse)
  }

  lemma OldestOf<T>(loaded: seq<Row<T>>, limit: int)
    requires limit > 0 && |loaded| > limit
    ensures FromStore(loaded, limit, true).hasMore && FromStore(loaded, limit, true).oldest == loaded[limit - 1].id
  {
    assert Limited(loaded, limit)[limit - 1] == loaded[limit - 1];
  }

  lemma OldestMoves<T>(log: seq<Row<T>>, cursor: string, limit: int, page: Page<T>)
    requires Log(log) && PageAt(log, cursor, limit, true, page) && page.hasMore
    ensures Load(log, page.oldest, Probe(limit, true), true).Some?
    ensures Ahead(log, page.oldest, true) < Ahead(log, cursor, true)
  {
    var loaded := Load(log, cursor, Probe(limit, true), true).value;
    OldestOf(loaded, limit);
    CursorMoves(log, cursor, Probe(limit, true), true, loaded[limit - 1]);
  }

  lemma BackStep<T>(log: seq<Row<T>>, cursor: string, limit: int, page: Page<T>)
    requires Log(log) && PageAt(log, cursor, limit, true, page)
    ensures ReadBack(log, cursor, limit)
         == (if page.hasMore then ReadBack(log, page.oldest, limit) else []) + page.rows
  {
    if !page.hasMore {
      assert [] + page.rows == page.rows;
    }
  }

  lemma OnStep<T>(log: seq<Row<T>>, cursor: string, limit: int, page: Page<T>)
    requires Log(log) && PageAt(log, cursor, limit, false, page)
    ensures ReadOn(log, cursor, limit)
         == page.rows + if page.next != "" then ReadOn(log, page.next, limit) else []
    ensures page.next != "" ==>
      Load(log, page.next, limit, false).Some? && Ahead(log, page.next, false) < Ahead(log, cursor, false)
  {
    var loaded := Load(log, cursor, limit, false).value;
    if page.next != "" {
      CursorMoves(log, cursor, limit, false, loaded[|loaded| - 1]);
    } else {
      assert page.rows + [] == page.rows;
    }
  }

  /** Paging back from the end until nothing is older terminates, whatever the page size and
      whatever ties the log has. */
  method ReadBackward<T>(log: seq<Row<T>>, limit: int) returns (pages: seq<seq<Row<T>>>)
    requires Log(log)
    ensures Flatten(pages) == ReadBack(log, "", limit)
  {
    ghost var cursor := "";
    var page := WindowOf(log, "", limit, true);
    pages := [page.rows];
    FlattenOne(page.rows);
    BackStep(log, "", limit, page);
    while page.hasMore
      invariant PageAt(log, cursor, limit, true, page)
      invariant ReadBack(log, "", limit)
             == (if page.hasMore then ReadBack(log, page.oldest, limit) else []) + Flatten(pages)
      decreases Ahead(log, cursor, true)
    {
      OldestMoves(log, cursor, limit, page);
      cursor := page.oldest;
      page := WindowOf(log, page.oldest, limit, true);
      BackStep(log, cursor, limit, page);
      FlattenCons(page.rows, pages);
      Regroup(if page.hasMore then ReadBack(log, page.oldest, limit) else [], page.rows, Flatten(pages));
      pages := [page.rows] + pages;
    }
    assert [] + Flatten(pages) == Flatten(pages);
  }

  method ReadForward<T>(log: seq<Row<T>>, limit: int) returns (pages: seq<seq<Row<T>>>)
    requires Log(log)
    ensures Flatten(pages) == ReadOn(log, "", limit)
  {
    ghost var cursor := "";
    var page := WindowOf(log, "", limit, false);
    pages := [page.rows];
    FlattenOne(page.rows);
    OnStep(log, "", limit, page);
    while page.next != ""
      invariant PageAt(log, cursor, limit, false, page)
      invariant ReadOn(log, "", limit)
             == Flatten(pages) + if page.next != "" then ReadOn(log, page.next, limit) else []
      decreases Ahead(log, cursor, false)
    {
      OnStep(log, cursor, limit, page);
      cursor := page.next;
      page := WindowOf(log, page.next, limit, false);
      OnStep(log, cursor, limit, page);
      FlattenSnoc(pages, page.rows);
      Regroup(Flatten(pages), page.rows, if page.next != "" then ReadOn(log, page.next, limit) else []);
      pages := pages + [page.rows];
    }
    assert Flatten(pages) + [] == Flatten(pages);
  }

  // ---------------------------------------------------------------- exactly the strict logs

  /** The cursor of the window that ends before row `end`. */
  function EndCursor<T>(log: seq<Row<T>>, end: nat): string
    requires end <= |log|
  {
    if end == |log| then "" else log[end].id
  }

  lemma BackwardPage<T>(log: seq<Row<T>>, end: nat, limit: int)
    requires Log(log) && Strict(log) && end <= |log|
    ensures var loaded := Load(log, EndCursor(log, end), Probe(limit, true), true);
      loaded.Some? && FromStore(loaded.value, limit, true) == Backward(log, end, limit)
  {
    if end < |log| { FindAt(log, end); }
    StoreWindow(log, EndCursor(log, end), limit, true);
  }

  lemma {:induction false} BackRebuilds<T>(log: seq<Row<T>>, end: nat, limit: int)
    requires Log(log) && Strict(log) && end <= |log|
    ensures ReadBack(log, EndCursor(log, end), limit) == log[..end]
    decreases end
  {
    var page := Backward(log, end, limit);
    BackwardPage(log, end, limit);
    BackStep(log, EndCursor(log, end), limit, page);
    if page.hasMore {
      BackRebuilds(log, end - limit, limit);
      SliceJoins(log, end - limit, end);
    } else {
      assert page.rows == log[..end] && [] + page.rows == page.rows;
    }
  }

  function StartCursor<T>(log: seq<Row<T>>, start: nat): string
    requires start <= |log|
  {
    if start == 0 then "" else log[start - 1].id
  }

  lemma ForwardPage<T>(log: seq<Row<T>>, start: nat, limit: int)
    requires Log(log) && Strict(log) && start <= |log|
    ensures var loaded := Load(log, StartCursor(log, start), limit, false);
      loaded.Some? && FromStore(loaded.value, limit, false) == Forward(log, start, limit)
  {
    if start > 0 { FindAt(log, start - 1); }
    StoreWindow(log, StartCursor(log, start), limit, false);
  }

  lemma {:induction false} OnRebuilds<T>(log: seq<Row<T>>, start: nat, limit: int)
    requires Log(log) && Strict(log) && start <= |log|
    ensures ReadOn(log, StartCursor(log, start), limit) == log[start..]
    decreases |log| - start
  {
    var page := Forward(log, start, limit);
    ForwardPage(log, start, limit);
    OnStep(log, StartCursor(log, start), limit, page);
    if page.next != "" {
      OnRebuilds(log, start + limit, limit);
      SliceJoins(log, start, start + limit);
    } else {
      assert page.rows == log[start..] && page.rows + [] == page.rows;
    }
  }

  /** Read one row at a time, backward, a log is shown in strict order only: each row is
      strictly before the one that was read before it. */
  lemma {:induction false} OneByOneBack<T>(log: seq<Row<T>>, cursor: string)
    requires Log(log)
    ensures Strict(ReadBack(log, cursor, 1))
    ensures cursor != "" && Find(log, cursor) < |log| ==>
      forall i :: 0 <= i < |ReadBack(log, cursor, 1)| ==>
        ReadBack(log, cursor, 1)[i].seqNo < log[Find(log, cursor)].seqNo
    decreases Ahead(log, cursor, true)
  {
    var loaded := Load(log, cursor, 2, true);
    if loaded.Some? && loaded.value != [] {
      var r := loaded.value[0];
      CursorMoves(log, cursor, 2, true, r);
      LoadedRow(log, cursor, 2, true, r);
      assert Reversed([r]) == [r];
      if |loaded.value| > 1 {
        OneByOneBack(log, r.id);
      }
    }
  }

  lemma {:induction false} OneByOneOn<T>(log: seq<Row<T>>, cursor: string)
    requires Log(log)
    ensures Strict(ReadOn(log, cursor, 1))
    ensures cursor != "" && Find(log, cursor) < |log| ==>
      forall i :: 0 <= i < |ReadOn(log, cursor, 1)| ==>
        log[Find(log, cursor)].seqNo < ReadOn(log, cursor, 1)[i].seqNo
    decreases Ahead(log, cursor, false)
  {
    var loaded := Load(log, cursor, 1, false);
    if loaded.Some? && loaded.value != [] {
      var r := loaded.value[0];
      CursorMoves(log, cursor, 1, false, r);
      LoadedRow(log, cursor, 1, false, r);
      OneByOneOn(log, r.id);
    }
  }

  /** Exactly the logs without tied sequence numbers are rebuilt by paging back at every page
      size. */
  lemma PagingBackRebuildsIffStrict<T>(log: seq<Row<T>>)
    requires Log(log)
    ensures (forall limit: nat :: limit > 0 ==> ReadBack(log, "", limit) == log) <==> Strict(log)
  {
    if Strict(log) {
      forall limit: nat | limit > 0 ensures ReadBack(log, "", limit) == log {
        BackRebuilds(log, |log|, limit);
        assert log[..|log|] == log;
      }
    } else {
      OneByOneBack(log, "");
      assert ReadBack(log, "", 1) != log;
    }
  }

  /** And by paging forward. */
  lemma PagingOnRebuildsIffStrict<T>(log: seq<Row<T>>)
    requires Log(log)
    ensures (forall limit: nat :: limit > 0 ==> ReadOn(log, "", limit) == log) <==> Strict(log)
  {
    if Strict(log) {
      forall limit: nat | limit > 0 ensures ReadOn(log, "", limit) == log {
        OnRebuilds(log, 0, limit);
        assert log[0..] == log;
      }
    } else {
      OneByOneOn(log, "");
      assert ReadOn(log, "", 1) != log;
    }
  }

  /** A backward window reports more exactly when an older row exists. */
  lemma HasMoreIffOlder<T>(log: seq<Row<T>>, before: string, limit: int)
    requires Log(log) && Strict(log) && Window(log, before, limit, true).Ok?
    ensures var page := Window(log, before, limit, true).value;
      page.hasMore <==> exists i :: 0 <= i < |log| && log[i] !in page.rows && (before == "" || i < Find(log, before))
  {
    var end := if before == "" then |log| else Find(log, before);
    var page := Backward(log, end, limit);
    if page.hasMore {
      assert log[0] !in page.rows;
    } else {
      forall i | 0 <= i < end ensures log[i] in page.rows {
        assert page.rows[i] == log[i];
      }
    }
  }

  /** A row tied with the cursor's is in no window before the cursor and in none behind it. */
  lemma TiedRowIsSkipped<T>(log: seq<Row<T>>, i: nat, j: nat, limit: int, reverse: bool)
    requires Log(log) && i < |log| && j < |log| && log[i].seqNo == log[j].seqNo
    ensures var loaded := Load(log, log[j].id, limit, reverse); loaded.Some? && log[i] !in loaded.value
  {
    FindAt(log, j);
    var loaded := Load(log, log[j].id, limit, reverse).value;
    if log[i] in loaded { LoadedRow(log, log[j].id, limit, reverse, log[i]); }
  }
}
