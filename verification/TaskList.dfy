/** The session's task list: live tasks, persisted created records and persisted completions,
    merged into one entry per task. */
module TaskList {
  import opened Sequences
  import opened Sorting

  const RUNNING := "running"
  const CREATED := "created"
  const COMPLETED := "completed"
  const FAILED := "failed"
  const CANCELED := "canceled"

  datatype LiveTask = LiveTask(id: string, kind: string, status: string, description: string, output: string)

  datatype CreatedRecord = CreatedRecord(id: string, description: string)

  datatype Completion = Completion(id: string, kind: string, outcome: string, output: string, summary: string)

  datatype Entry = Entry(id: string, kind: string, status: string, description: string, output: string, summary: string)

  function EntryId(e: Entry): string {
    e.id
  }

  function StatusFor(status: string): string {
    if status in [COMPLETED, FAILED, CANCELED] then status else RUNNING
  }

  /** `summary` is the summary line of a description. */
  function EntryFromLive(t: LiveTask, summary: string -> string): Entry {
    Entry(t.id, t.kind, StatusFor(t.status), t.description, t.output, summary(t.description))
  }

  function EntryFromCompleted(c: Completion, base: Entry): Entry {
    Entry(base.id, if c.kind != "" then c.kind else base.kind, c.outcome,
          if base.description == "" then c.summary else base.description, c.output, c.summary)
  }

  // ---------------------------------------------------------------- the first record of each task

  function FirstCreated(created: seq<CreatedRecord>, id: string): Option<CreatedRecord> {
    if created == [] then None else if created[0].id == id then Some(created[0]) else FirstCreated(created[1..], id)
  }

  /** A completion without an id is no evidence for any task. */
  function FirstCompleted(completed: seq<Completion>, id: string): Option<Completion> {
    if completed == [] || id == "" then None
    else if completed[0].id == id then Some(completed[0])
    else FirstCompleted(completed[1..], id)
  }

  // ---------------------------------------------------------------- what the evidence says

  function Outcome(completed: seq<Completion>, base: Entry): Entry {
    var d := FirstCompleted(completed, base.id);
    if d.Some? then EntryFromCompleted(d.value, base) else base
  }

  function LiveEntry(completed: seq<Completion>, summary: string -> string): LiveTask -> Entry {
    (t: LiveTask) => Outcome(completed, EntryFromLive(t, summary))
  }

  function LiveWith(live: seq<LiveTask>, id: string): seq<LiveTask> {
    if live == [] then [] else (if live[0].id == id then [live[0]] else []) + LiveWith(live[1..], id)
  }

  /** The entries under one task id: one for each live task that has it, and without any the one
      the persisted records give. */
  function EntriesOf(live: seq<LiveTask>, created: seq<CreatedRecord>, completed: seq<Completion>,
                     summary: string -> string, id: string): seq<Entry> {
    var l, c := LiveWith(live, id), FirstCreated(created, id);
    if l != [] then Map(LiveEntry(completed, summary), l)
    else if c.Some? then [Outcome(completed, Entry(id, "", CREATED, c.value.description, "", ""))]
    else if FirstCompleted(completed, id).Some? then [Outcome(completed, Entry(id, "", "", "", "", ""))]
    else []
  }

  lemma {:induction false} LiveWithMember(live: seq<LiveTask>, id: string, t: LiveTask)
    ensures t in LiveWith(live, id) <==> t in live && t.id == id
  {
    if live != [] {
      LiveWithMember(live[1..], id, t);
      assert live == [live[0]] + live[1..];
    }
  }

  /** Every entry under an id bears it. */
  lemma EntriesBearTheId(live: seq<LiveTask>, created: seq<CreatedRecord>, completed: seq<Completion>,
                         summary: string -> string, id: string, e: Entry)
    requires e in EntriesOf(live, created, completed, summary, id)
    ensures e.id == id
  {
    var l := LiveWith(live, id);
    if l != [] {
      var t := MapOrigin(LiveEntry(completed, summary), l, e);
      LiveWithMember(live, id, t);
    }
  }

  // ---------------------------------------------------------------- the merge

  method IndexCreated(created: seq<CreatedRecord>) returns (m: map<string, CreatedRecord>)
    ensures forall id :: id in m <==> FirstCreated(created, id).Some?
    ensures forall id :: id in m ==> m[id] == FirstCreated(created, id).value
  {
    m := map[];
    for i := 0 to |created|
      invariant forall id ::
                  (if id in m then Some(m[id]) else FirstCreated(created[i..], id)) == FirstCreated(created, id)
    {
      assert created[i..][0] == created[i] && created[i..][1..] == created[i + 1..];
      if created[i].id !in m {
        m := m[created[i].id := created[i]];
      }
    }
  }

  method IndexCompleted(completed: seq<Completion>) returns (m: map<string, Completion>)
    ensures Indexes(m, completed)
  {
    m := map[];
    for i := 0 to |completed|
      invariant "" !in m
      invariant forall id ::
                  (if id in m then Some(m[id]) else FirstCompleted(completed[i..], id))
                  == FirstCompleted(completed, id)
    {
      assert completed[i..][0] == completed[i] && completed[i..][1..] == completed[i + 1..];
      if completed[i].id == "" {
        continue;
      }
      if completed[i].id !in m {
        m := m[completed[i].id := completed[i]];
      }
    }
  }

  ghost predicate Indexes(completedBy: map<string, Completion>, completed: seq<Completion>) {
    (forall id :: id in completedBy <==> FirstCompleted(completed, id).Some?)
    && (forall id :: id in completedBy ==> completedBy[id] == FirstCompleted(completed, id).value)
  }

  /** The entries collected so far: those under the ids in `seen`, each as often as the evidence
      gives it. */
  ghost predicate Collected(entries: seq<Entry>, seen: set<string>, live: seq<LiveTask>, created: seq<CreatedRecord>,
                            completed: seq<Completion>, summary: string -> string) {
    forall e: Entry :: multiset(entries)[e]
             == if e.id in seen then multiset(EntriesOf(live, created, completed, summary, e.id))[e] else 0
  }

  lemma CollectOne(entries: seq<Entry>, seen: set<string>, live: seq<LiveTask>, created: seq<CreatedRecord>,
                   completed: seq<Completion>, summary: string -> string, e: Entry)
    requires Collected(entries, seen, live, created, completed, summary)
    requires e.id !in seen && EntriesOf(live, created, completed, summary, e.id) == [e]
    ensures Collected(entries + [e], seen + {e.id}, live, created, completed, summary)
  {
    forall x: Entry
      ensures multiset(entries + [e])[x]
           == if x.id in seen + {e.id} then multiset(EntriesOf(live, created, completed, summary, x.id))[x] else 0
    {
      assert multiset(entries + [e]) == multiset(entries) + multiset{e};
      assert x.id !in seen ==> multiset(entries)[x] == 0;
    }
  }

  /** The merged list, in order of task id: for every live task its entry, and one entry for
      every other task there is evidence of. */
  ghost predicate Merged(r: seq<Entry>, live: seq<LiveTask>, created: seq<CreatedRecord>, completed: seq<Completion>,
                         summary: string -> string) {
    Ordered(EntryId, r)
    && forall e: Entry :: multiset(r)[e] == multiset(EntriesOf(live, created, completed, summary, e.id))[e]
  }

  function LiveId(t: LiveTask): string {
    t.id
  }

  ghost function LiveIds(live: seq<LiveTask>): set<string> {
    set t | t in live :: t.id
  }

  lemma MapCons(f: LiveTask -> Entry, t: LiveTask, rest: seq<LiveTask>)
    ensures multiset(Map(f, [t] + rest)) == multiset{f(t)} + multiset(Map(f, rest))
  {
    assert Map(f, [t] + rest) == [f(t)] + Map(f, rest);
  }

  lemma {:induction false} LiveCount(live: seq<LiveTask>, completed: seq<Completion>, summary: string -> string,
                                     e: Entry)
    ensures var f := LiveEntry(completed, summary);
      multiset(Map(f, live))[e] == multiset(Map(f, LiveWith(live, e.id)))[e]
  {
    if live != [] {
      var f, t, rest := LiveEntry(completed, summary), live[0], LiveWith(live[1..], e.id);
      LiveCount(live[1..], completed, summary, e);
      assert live == [t] + live[1..];
      MapCons(f, t, live[1..]);
      if t.id == e.id {
        MapCons(f, t, rest);
      } else {
        assert f(t) != e && LiveWith(live, e.id) == rest;
      }
    }
  }

  lemma LiveCollected(live: seq<LiveTask>, created: seq<CreatedRecord>, completed: seq<Completion>,
                      summary: string -> string)
    ensures Collected(Map(LiveEntry(completed, summary), live), LiveIds(live), live, created, completed, summary)
  {
    var f := LiveEntry(completed, summary);
    forall e: Entry
      ensures multiset(Map(f, live))[e]
           == if e.id in LiveIds(live) then multiset(EntriesOf(live, created, completed, summary, e.id))[e] else 0
    {
      LiveCount(live, completed, summary, e);
      if e.id in LiveIds(live) {
        var t :| t in live && t.id == e.id;
        LiveWithMember(live, e.id, t);
      } else if LiveWith(live, e.id) != [] {
        LiveWithMember(live, e.id, LiveWith(live, e.id)[0]);
      }
    }
  }

  method MergeLive(live: seq<LiveTask>, ghost created: seq<CreatedRecord>, completed: seq<Completion>,
                   summary: string -> string, completedBy: map<string, Completion>)
      returns (entries: seq<Entry>, seen: set<string>)
    requires Indexes(completedBy, completed)
    ensures entries == Map(LiveEntry(completed, summary), live) && seen == LiveIds(live)
    ensures Collected(entries, seen, live, created, completed, summary)
  {
    entries, seen := [], {};
    for i := 0 to |live|
      invariant entries == Map(LiveEntry(completed, summary), live[..i]) && seen == LiveIds(live[..i])
    {
      var task := live[i];
      var entry := EntryFromLive(task, summary);
      if task.id in completedBy {
        entry := EntryFromCompleted(completedBy[task.id], entry);
      }
      assert live[..i + 1] == live[..i] + [task];
      MapAppend(LiveEntry(completed, summary), live[..i], [task]);
      entries, seen := entries + [entry], seen + {task.id};
    }
    assert live[..|live|] == live;
    LiveCollected(live, created, completed, summary);
  }

  lemma NotLive(live: seq<LiveTask>, id: string)
    requires id !in LiveIds(live)
    ensures LiveWith(live, id) == []
  {
    if LiveWith(live, id) != [] { LiveWithMember(live, id, LiveWith(live, id)[0]); }
  }

  lemma PersistedEntry(live: seq<LiveTask>, created: seq<CreatedRecord>, completed: seq<Completion>,
                       summary: string -> string, id: string)
    requires id !in LiveIds(live)
    ensures var c := FirstCreated(created, id);
      EntriesOf(live, created, completed, summary, id)
      == if c.Some? then [Outcome(completed, Entry(id, "", CREATED, c.value.description, "", ""))]
         else if FirstCompleted(completed, id).Some? then [Outcome(completed, Entry(id, "", "", "", "", ""))]
         else []
  {
    NotLive(live, id);
  }

  /** The loops over the two maps take the keys in any order. */
  method MergeCreated(entries: seq<Entry>, seen: set<string>, createdBy: map<string, CreatedRecord>,
                      completedBy: map<string, Completion>, ghost live: seq<LiveTask>,
                      ghost created: seq<CreatedRecord>, ghost completed: seq<Completion>,
                      ghost summary: string -> string)
      returns (entries': seq<Entry>, seen': set<string>)
    requires Collected(entries, seen, live, created, completed, summary) && Indexes(completedBy, completed)
    requires forall id :: id in createdBy ==> FirstCreated(created, id) == Some(createdBy[id])
    requires LiveIds(live) <= seen
    ensures Collected(entries', seen', live, created, completed, summary) && seen' == seen + createdBy.Keys
  {
    entries', seen' := entries, seen;
    var todo := createdBy.Keys;
    while todo != {}
      invariant Collected(entries', seen', live, created, completed, summary) && seen <= seen'
      invariant todo <= createdBy.Keys && seen' + todo == seen + createdBy.Keys
      decreases |todo|
    {
      var id :| id in todo;
      todo := todo - {id};
      if id in seen' {
        continue;
      }
      var entry := Entry(id, "", CREATED, createdBy[id].description, "", "");
      if id in completedBy {
        entry := EntryFromCompleted(completedBy[id], entry);
      }
      PersistedEntry(live, created, completed, summary, id);
      CollectOne(entries', seen', live, created, completed, summary, entry);
      entries', seen' := entries' + [entry], seen' + {id};
    }
  }

  method MergeCompleted(entries: seq<Entry>, seen: set<string>, completedBy: map<string, Completion>,
                        ghost live: seq<LiveTask>, ghost created: seq<CreatedRecord>,
                        ghost completed: seq<Completion>, ghost summary: string -> string)
      returns (entries': seq<Entry>, ghost seen': set<string>)
    requires Collected(entries, seen, live, created, completed, summary) && Indexes(completedBy, completed)
    requires LiveIds(live) <= seen && forall id :: FirstCreated(created, id).Some? ==> id in seen
    ensures Collected(entries', seen', live, created, completed, summary) && seen' == seen + completedBy.Keys
  {
    entries', seen' := entries, seen;
    var todo := completedBy.Keys;
    while todo != {}
      invariant Collected(entries', seen', live, created, completed, summary)
      invariant todo <= completedBy.Keys && seen' == seen + (completedBy.Keys - todo)
      decreases |todo|
    {
      var id :| id in todo;
      TakeKey(seen, completedBy.Keys, todo, id);
      todo := todo - {id};
      if id in seen {
        assert seen' + {id} == seen';
        continue;
      }
      var entry := EntryFromCompleted(completedBy[id], Entry(id, "", "", "", "", ""));
      assert EntriesOf(live, created, completed, summary, id) == [entry] by {
        PersistedEntry(live, created, completed, summary, id);
      }
      CollectOne(entries', seen', live, created, completed, summary, entry);
      entries', seen' := entries' + [entry], seen' + {id};
    }
  }

  lemma TakeKey(seen: set<string>, keys: set<string>, todo: set<string>, id: string)
    requires id in todo && todo <= keys
    ensures seen + (keys - (todo - {id})) == seen + (keys - todo) + {id}
  {
  }

  /** The list is the merged one, whatever the live tasks are; which of several entries under one
      id comes first is left to the sort. */
  method MergeSessionTasks(live: seq<LiveTask>, created: seq<CreatedRecord>, completed: seq<Completion>,
                           summary: string -> string) returns (r: seq<Entry>)
    ensures Merged(r, live, created, completed, summary)
  {
    var createdBy := IndexCreated(created);
    var completedBy := IndexCompleted(completed);
    var entries, seen := MergeLive(live, created, completed, summary, completedBy);
    entries, seen := MergeCreated(entries, seen, createdBy, completedBy, live, created, completed, summary);
    ghost var all;
    entries, all := MergeCompleted(entries, seen, completedBy, live, created, completed, summary);
    r := SortBy(EntryId, entries);
    SortCollected(entries, all, live, created, completed, summary);
  }

  lemma SortCollected(entries: seq<Entry>, seen: set<string>, live: seq<LiveTask>, created: seq<CreatedRecord>,
                      completed: seq<Completion>, summary: string -> string)
    requires Collected(entries, seen, live, created, completed, summary) && LiveIds(live) <= seen
    requires forall id :: FirstCreated(created, id).Some? || FirstCompleted(completed, id).Some? ==> id in seen
    ensures Merged(SortBy(EntryId, entries), live, created, completed, summary)
  {
    var r := SortBy(EntryId, entries);
    SortOrders(EntryId, entries);
    forall e: Entry ensures multiset(r)[e] == multiset(EntriesOf(live, created, completed, summary, e.id))[e] {
      if e.id !in seen { NotLive(live, e.id); }
    }
  }

  // ---------------------------------------------------------------- what the list says

  /** No two live tasks share an id with different entries. */
  ghost predicate NoTies(live: seq<LiveTask>, completed: seq<Completion>, summary: string -> string) {
    forall t, u :: t in live && u in live && t.id == u.id ==>
      LiveEntry(completed, summary)(t) == LiveEntry(completed, summary)(u)
  }

  lemma ListedIsGiven(r: seq<Entry>, live: seq<LiveTask>, created: seq<CreatedRecord>, completed: seq<Completion>,
                      summary: string -> string, e: Entry)
    requires Merged(r, live, created, completed, summary)
    ensures e in r <==> e in EntriesOf(live, created, completed, summary, e.id)
  {
    assert e in r <==> multiset(r)[e] > 0;
  }

  lemma UnderOneId(live: seq<LiveTask>, created: seq<CreatedRecord>, completed: seq<Completion>,
                   summary: string -> string, id: string, x: Entry, y: Entry)
    requires NoTies(live, completed, summary)
    requires x in EntriesOf(live, created, completed, summary, id)
    requires y in EntriesOf(live, created, completed, summary, id)
    ensures x == y
  {
    var f, l := LiveEntry(completed, summary), LiveWith(live, id);
    if l != [] {
      var t := MapOrigin(f, l, x);
      var u := MapOrigin(f, l, y);
      LiveWithMember(live, id, t);
      LiveWithMember(live, id, u);
    }
  }

  lemma SameIdSameEntry(r: seq<Entry>, live: seq<LiveTask>, created: seq<CreatedRecord>, completed: seq<Completion>,
                        summary: string -> string, x: Entry, y: Entry)
    requires Merged(r, live, created, completed, summary) && NoTies(live, completed, summary)
    requires x in r && y in r && x.id == y.id
    ensures x == y
  {
    assert x in EntriesOf(live, created, completed, summary, x.id) by {
      ListedIsGiven(r, live, created, completed, summary, x);
    }
    assert y in EntriesOf(live, created, completed, summary, x.id) by {
      ListedIsGiven(r, live, created, completed, summary, y);
    }
    UnderOneId(live, created, completed, summary, x.id, x, y);
  }

  /** Two entries change places. */
  function Swapped(r: seq<Entry>, i: nat, j: nat): seq<Entry>
    requires i < |r| && j < |r|
  {
    r[i := r[j]][j := r[i]]
  }

  lemma SwapKeeps(r: seq<Entry>, i: nat, j: nat)
    requires i < |r| && j < |r|
    ensures multiset(Swapped(r, i, j)) == multiset(r)
  {
  }

  lemma SwappedIsMerged(r: seq<Entry>, live: seq<LiveTask>, created: seq<CreatedRecord>, completed: seq<Completion>,
                        summary: string -> string, i: nat, j: nat)
    requires Merged(r, live, created, completed, summary) && i < |r| && j < |r| && r[i].id == r[j].id
    ensures Merged(Swapped(r, i, j), live, created, completed, summary)
  {
    var q := Swapped(r, i, j);
    assert multiset(q) == multiset(r) by { SwapKeeps(r, i, j); }
    assert Ordered(EntryId, q) by { SameKeysOrdered(EntryId, r, q); }
  }

  /** Whatever order the maps are iterated in, the entries are the same, and there is only one
      such list exactly when no two live tasks share an id with different entries. */
  lemma MergeIsUnique(r: seq<Entry>, live: seq<LiveTask>, created: seq<CreatedRecord>, completed: seq<Completion>,
                      summary: string -> string)
    requires Merged(r, live, created, completed, summary)
    ensures forall b :: Merged(b, live, created, completed, summary) ==> multiset(b) == multiset(r)
    ensures (forall b :: Merged(b, live, created, completed, summary) ==> b == r) <==> NoTies(live, completed, summary)
  {
    forall b | Merged(b, live, created, completed, summary) ensures multiset(b) == multiset(r) {
      assert forall e: Entry :: multiset(b)[e] == multiset(r)[e];
    }
    if NoTies(live, completed, summary) {
      forall b | Merged(b, live, created, completed, summary) ensures b == r {
        forall x, y | x in r && y in r && EntryId(x) == EntryId(y) ensures x == y {
          SameIdSameEntry(r, live, created, completed, summary, x, y);
        }
        OrderedUnique(EntryId, r, b);
      }
    } else {
      var t, u :| t in live && u in live && t.id == u.id
        && LiveEntry(completed, summary)(t) != LiveEntry(completed, summary)(u);
      var i := EntryListed(r, live, created, completed, summary, t);
      var j := EntryListed(r, live, created, completed, summary, u);
      SwappedIsMerged(r, live, created, completed, summary, i, j);
      assert Swapped(r, i, j)[j] != r[j];
    }
  }

  lemma EntryListed(r: seq<Entry>, live: seq<LiveTask>, created: seq<CreatedRecord>, completed: seq<Completion>,
                    summary: string -> string, t: LiveTask) returns (i: nat)
    requires Merged(r, live, created, completed, summary) && t in live
    ensures i < |r| && r[i] == LiveEntry(completed, summary)(t) && r[i].id == t.id
  {
    var f := LiveEntry(completed, summary);
    LiveWithMember(live, t.id, t);
    MapMember(f, LiveWith(live, t.id), t);
    ListedIsGiven(r, live, created, completed, summary, f(t));
    i :| 0 <= i < |r| && r[i] == f(t);
  }

  /** Of live tasks with distinct ids, one entry per task: no id is listed twice. */
  lemma OneEntryPerTask(r: seq<Entry>, live: seq<LiveTask>, created: seq<CreatedRecord>, completed: seq<Completion>,
                        summary: string -> string, i: nat, j: nat)
    requires Merged(r, live, created, completed, summary) && Distinct(Map(LiveId, live)) && i < j < |r|
    ensures r[i].id != r[j].id
  {
    var es := EntriesOf(live, created, completed, summary, r[i].id);
    assert |es| <= 1 by { DistinctLive(live, r[i].id); }
    assert multiset(r)[r[i]] == multiset(es)[r[i]];
    OneListing(r, i, j, es);
    ListedIsGiven(r, live, created, completed, summary, r[i]);
    ListedIsGiven(r, live, created, completed, summary, r[j]);
  }

  lemma OneListing(r: seq<Entry>, i: nat, j: nat, es: seq<Entry>)
    requires |es| <= 1 && i < j < |r| && multiset(r)[r[i]] == multiset(es)[r[i]]
    ensures !(r[i] in es && r[j] in es)
  {
    if r[i] == r[j] {
      TwiceListed(r, i, j);
    }
    if es != [] { assert es == [es[0]] && multiset(es)[r[i]] <= 1; }
  }

  lemma TwiceListed(r: seq<Entry>, i: nat, j: nat)
    requires i < j < |r| && r[i] == r[j]
    ensures multiset(r)[r[i]] >= 2
  {
    assert r == r[..i] + [r[i]] + r[i + 1..j] + [r[j]] + r[j + 1..];
  }

  lemma {:induction false} DistinctLive(live: seq<LiveTask>, id: string)
    requires Distinct(Map(LiveId, live))
    ensures |LiveWith(live, id)| <= 1
  {
    if live != [] {
      assert Map(LiveId, live[1..]) == Map(LiveId, live)[1..];
      DistinctLive(live[1..], id);
      if live[0].id == id {
        forall k | 0 <= k < |live| - 1 ensures live[1..][k].id != id {
          assert Map(LiveId, live)[0] != Map(LiveId, live)[k + 1];
        }
        NotLive(live[1..], id);
      }
    }
  }

  lemma LiveStatus(t: LiveTask, completed: seq<Completion>, summary: string -> string)
    ensures var status, d := LiveEntry(completed, summary)(t).status, FirstCompleted(completed, t.id);
      status == (if d.Some? then d.value.outcome else StatusFor(t.status)) && StatusFor(t.status) != CREATED
  {
  }

  /** A persisted outcome decides the status; without one, a live task is never shown as
      merely created, and a task with only its created record never as running. */
  lemma EvidenceDecidesStatus(r: seq<Entry>, live: seq<LiveTask>, created: seq<CreatedRecord>,
                              completed: seq<Completion>, summary: string -> string, e: Entry)
    requires Merged(r, live, created, completed, summary) && e in r
    ensures FirstCompleted(completed, e.id).Some? ==> e.status == FirstCompleted(completed, e.id).value.outcome
    ensures FirstCompleted(completed, e.id).None? ==>
      (e.status == CREATED <==> e.id !in LiveIds(live)) && (e.status == RUNNING ==> e.id in LiveIds(live))
  {
    assert e in EntriesOf(live, created, completed, summary, e.id) by {
      ListedIsGiven(r, live, created, completed, summary, e);
    }
    if e.id in LiveIds(live) {
      var t := LiveOrigin(live, created, completed, summary, e);
      LiveStatus(t, completed, summary);
    } else {
      PersistedEntry(live, created, completed, summary, e.id);
    }
  }

  lemma LiveOrigin(live: seq<LiveTask>, created: seq<CreatedRecord>, completed: seq<Completion>,
                   summary: string -> string, e: Entry) returns (t: LiveTask)
    requires e in EntriesOf(live, created, completed, summary, e.id) && e.id in LiveIds(live)
    ensures t in live && t.id == e.id && e == LiveEntry(completed, summary)(t)
  {
    var u :| u in live && u.id == e.id;
    LiveWithMember(live, e.id, u);
    t := MapOrigin(LiveEntry(completed, summary), LiveWith(live, e.id), e);
    LiveWithMember(live, e.id, t);
  }

  /** The first completion persisted under the id; one without an id counts for no task. */
  ghost predicate CompletedFirst(completed: seq<Completion>, id: string, c: Completion) {
    id != "" && exists i :: 0 <= i < |completed| && completed[i] == c && c.id == id
                            && forall j :: 0 <= j < i ==> completed[j].id != id
  }

  ghost predicate CreatedFirst(created: seq<CreatedRecord>, id: string, c: CreatedRecord) {
    exists i :: 0 <= i < |created| && created[i] == c && c.id == id && forall j :: 0 <= j < i ==> created[j].id != id
  }

  lemma {:induction false} FirstCompletedIs(completed: seq<Completion>, id: string)
    ensures match FirstCompleted(completed, id)
            case None => id == "" || forall i :: 0 <= i < |completed| ==> completed[i].id != id
            case Some(c) => CompletedFirst(completed, id, c)
  {
    if completed != [] && id != "" {
      FirstCompletedIs(completed[1..], id);
      if completed[0].id == id {
        assert completed[0] == completed[0];
      } else if FirstCompleted(completed, id).Some? {
        var rest, c := completed[1..], FirstCompleted(completed, id).value;
        var i :| 0 <= i < |rest| && rest[i] == c && c.id == id && forall j :: 0 <= j < i ==> rest[j].id != id;
        assert completed[i + 1] == c && forall j :: 0 <= j < i + 1 ==> completed[j].id != id;
      } else {
        assert forall i :: 0 < i < |completed| ==> completed[i] == completed[1..][i - 1];
      }
    }
  }

  lemma {:induction false} FirstCreatedIs(created: seq<CreatedRecord>, id: string)
    ensures match FirstCreated(created, id)
            case None => forall i :: 0 <= i < |created| ==> created[i].id != id
            case Some(c) => CreatedFirst(created, id, c)
  {
    if created != [] {
      FirstCreatedIs(created[1..], id);
      if created[0].id == id {
        assert created[0] == created[0];
      } else if FirstCreated(created, id).Some? {
        var rest, c := created[1..], FirstCreated(created, id).value;
        var i :| 0 <= i < |rest| && rest[i] == c && c.id == id && forall j :: 0 <= j < i ==> rest[j].id != id;
        assert created[i + 1] == c && forall j :: 0 <= j < i + 1 ==> created[j].id != id;
      } else {
        assert forall i :: 0 < i < |created| ==> created[i] == created[1..][i - 1];
      }
    }
  }

  /** What is known of a task but for its outcome: a live task's own account, running unless it
      has ended one of three ways; without one a created record's, or nothing. */
  ghost predicate KnownAs(b: Entry, live: seq<LiveTask>, created: seq<CreatedRecord>, summary: string -> string) {
    if exists t :: t in live && t.id == b.id then
      exists t :: t in live && t.id == b.id && b.kind == t.kind && b.description == t.description
                  && b.output == t.output && b.summary == summary(t.description)
                  && b.status == if t.status in ["completed", "failed", "canceled"] then t.status else "running"
    else if exists c :: CreatedFirst(created, b.id, c) then
      exists c :: CreatedFirst(created, b.id, c) && b == Entry(b.id, "", "created", c.description, "", "")
    else b == Entry(b.id, "", "", "", "", "")
  }

  /** The entry with its persisted outcome: that decides status, output and summary, and the
      kind and a missing description when it tells them. */
  ghost predicate SettledAs(e: Entry, b: Entry, completed: seq<Completion>) {
    e.id == b.id
    && ((forall c :: !CompletedFirst(completed, b.id, c)) ==> e == b)
    && forall c :: CompletedFirst(completed, b.id, c) ==>
      e.status == c.outcome && e.output == c.output && e.summary == c.summary
      && e.kind == (if c.kind == "" then b.kind else c.kind)
      && e.description == if b.description == "" then c.summary else b.description
  }

  lemma OutcomeSettles(completed: seq<Completion>, b: Entry)
    ensures SettledAs(Outcome(completed, b), b, completed)
  {
    FirstCompletedIs(completed, b.id);
    forall c | CompletedFirst(completed, b.id, c) ensures FirstCompleted(completed, b.id) == Some(c) {
      var i :| 0 <= i < |completed| && completed[i] == c && c.id == b.id
               && forall j :: 0 <= j < i ==> completed[j].id != b.id;
      if FirstCompleted(completed, b.id).Some? {
        var d := FirstCompleted(completed, b.id).value;
        var k :| 0 <= k < |completed| && completed[k] == d && d.id == b.id
                 && forall j :: 0 <= j < k ==> completed[j].id != b.id;
        assert i == k;
      }
    }
  }

  lemma LiveIsKnown(t: LiveTask, live: seq<LiveTask>, created: seq<CreatedRecord>, summary: string -> string)
    requires t in live
    ensures KnownAs(EntryFromLive(t, summary), live, created, summary)
  {
    var b := EntryFromLive(t, summary);
    assert t in live && t.id == b.id && b.kind == t.kind;
  }

  lemma PersistedIsKnown(b: Entry, live: seq<LiveTask>, created: seq<CreatedRecord>, summary: string -> string)
    requires b.id !in LiveIds(live)
    requires var c := FirstCreated(created, b.id);
      b == if c.Some? then Entry(b.id, "", CREATED, c.value.description, "", "") else Entry(b.id, "", "", "", "", "")
    ensures KnownAs(b, live, created, summary)
  {
    FirstCreatedIs(created, b.id);
    assert forall t :: t in live && t.id == b.id ==> t.id in LiveIds(live);
    if c :| CreatedFirst(created, b.id, c) {
      var i :| 0 <= i < |created| && created[i] == c && c.id == b.id;
    }
  }

  /** Every entry says what the evidence says, field by field. */
  lemma EntrySaysTheEvidence(r: seq<Entry>, live: seq<LiveTask>, created: seq<CreatedRecord>,
                             completed: seq<Completion>, summary: string -> string, e: Entry) returns (b: Entry)
    requires Merged(r, live, created, completed, summary) && e in r
    ensures KnownAs(b, live, created, summary) && SettledAs(e, b, completed)
  {
    assert e in EntriesOf(live, created, completed, summary, e.id) by {
      ListedIsGiven(r, live, created, completed, summary, e);
    }
    if e.id in LiveIds(live) {
      var t := LiveOrigin(live, created, completed, summary, e);
      b := EntryFromLive(t, summary);
      LiveIsKnown(t, live, created, summary);
    } else {
      var c := FirstCreated(created, e.id);
      PersistedEntry(live, created, completed, summary, e.id);
      b := if c.Some? then Entry(e.id, "", CREATED, c.value.description, "", "") else Entry(e.id, "", "", "", "", "");
      PersistedIsKnown(b, live, created, summary);
    }
    OutcomeSettles(completed, b);
  }

  lemma EntriesIff(live: seq<LiveTask>, created: seq<CreatedRecord>, completed: seq<Completion>,
                   summary: string -> string, id: string)
    ensures EntriesOf(live, created, completed, summary, id) != []
       <==> (exists t :: t in live && t.id == id) || (exists c :: CreatedFirst(created, id, c))
            || exists c :: CompletedFirst(completed, id, c)
  {
    var l := LiveWith(live, id);
    FirstCreatedIs(created, id);
    FirstCompletedIs(completed, id);
    if l != [] { LiveWithMember(live, id, l[0]); }
    if t :| t in live && t.id == id { LiveWithMember(live, id, t); }
    if c :| CreatedFirst(created, id, c) { assert FirstCreated(created, id).Some?; }
    if c :| CompletedFirst(completed, id, c) { assert FirstCompleted(completed, id).Some?; }
  }

  /** And every task there is evidence of has an entry. */
  lemma EvidenceIsListed(r: seq<Entry>, live: seq<LiveTask>, created: seq<CreatedRecord>, completed: seq<Completion>,
                         summary: string -> string, id: string)
    requires Merged(r, live, created, completed, summary)
    ensures (exists e :: e in r && e.id == id)
       <==> (exists t :: t in live && t.id == id) || (exists c :: CreatedFirst(created, id, c))
            || exists c :: CompletedFirst(completed, id, c)
  {
    var es := EntriesOf(live, created, completed, summary, id);
    FirstCreatedIs(created, id);
    FirstCompletedIs(completed, id);
    if es != [] {
      EntriesBearTheId(live, created, completed, summary, id, es[0]);
      ListedIsGiven(r, live, created, completed, summary, es[0]);
    }
    if e :| e in r && e.id == id { ListedIsGiven(r, live, created, completed, summary, e); }
    EntriesIff(live, created, completed, summary, id);
  }

  lemma {:induction false} FirstOfParts(a: seq<CreatedRecord>, b: seq<CreatedRecord>, x: seq<Completion>,
                                        y: seq<Completion>, id: string)
    ensures FirstCreated(a + b, id) == if FirstCreated(a, id).Some? then FirstCreated(a, id) else FirstCreated(b, id)
    ensures FirstCompleted(x + y, id)
         == if FirstCompleted(x, id).Some? then FirstCompleted(x, id) else FirstCompleted(y, id)
    decreases |a| + |x|
  {
    if a == [] {
      assert a + b == b;
    } else {
      assert (a + b)[1..] == a[1..] + b;
      FirstOfParts(a[1..], b, [], y, id);
    }
    if x == [] {
      assert x + y == y;
    } else {
      assert (x + y)[1..] == x[1..] + y;
      FirstOfParts([], b, x[1..], y, id);
    }
  }

  lemma DuplicatesAreNotFirst(a: seq<CreatedRecord>, again: CreatedRecord, b: seq<CreatedRecord>,
                              x: seq<Completion>, done: Completion, y: seq<Completion>, id: string)
    requires FirstCreated(a, again.id).Some? && (done.id == "" || FirstCompleted(x, done.id).Some?)
    ensures FirstCreated(a + [again] + b, id) == FirstCreated(a + b, id)
    ensures FirstCompleted(x + [done] + y, id) == FirstCompleted(x + y, id)
  {
    FirstOfParts(a, [again], x, [done], id);
    FirstOfParts(a + [again], b, x + [done], y, id);
    FirstOfParts(a, b, x, y, id);
  }

  /** A record persisted again, anywhere after its first occurrence, changes nothing. */
  lemma DuplicatesChangeNothing(r: seq<Entry>, live: seq<LiveTask>, summary: string -> string,
                                a: seq<CreatedRecord>, again: CreatedRecord, b: seq<CreatedRecord>,
                                x: seq<Completion>, done: Completion, y: seq<Completion>)
    requires FirstCreated(a, again.id).Some? && (done.id == "" || FirstCompleted(x, done.id).Some?)
    ensures Merged(r, live, a + [again] + b, x + [done] + y, summary) <==> Merged(r, live, a + b, x + y, summary)
  {
    forall id
      ensures EntriesOf(live, a + [again] + b, x + [done] + y, summary, id)
           == EntriesOf(live, a + b, x + y, summary, id)
    {
      SameEvidence(live, summary, a, again, b, x, done, y, id);
    }
  }

  lemma SameEvidence(live: seq<LiveTask>, summary: string -> string, a: seq<CreatedRecord>, again: CreatedRecord,
                     b: seq<CreatedRecord>, x: seq<Completion>, done: Completion, y: seq<Completion>, id: string)
    requires FirstCreated(a, again.id).Some? && (done.id == "" || FirstCompleted(x, done.id).Some?)
    ensures EntriesOf(live, a + [again] + b, x + [done] + y, summary, id) == EntriesOf(live, a + b, x + y, summary, id)
  {
    var l, f, g := LiveWith(live, id), LiveEntry(x + [done] + y, summary), LiveEntry(x + y, summary);
    DuplicatesAreNotFirst(a, again, b, x, done, y, id);
    forall k | 0 <= k < |l| ensures f(l[k]) == g(l[k]) {
      LiveWithMember(live, id, l[k]);
    }
    assert Map(f, l) == Map(g, l);
  }
}
