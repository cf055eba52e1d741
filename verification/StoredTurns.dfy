/** A turn's messages on their way: as they are built or told live, as the log stores them, and
    as a reloaded transcript shows them. */
module StoredTurns {
  import opened Sequences
  import opened Text
  import Attachments
  import DrainEvents
  import HistoryTurns

  /** What the log tells of a user's message: its role, its visible text and its attachments. */
  function StoredUser(m: Attachments.Message): HistoryTurns.Entry {
    HistoryTurns.Message(m.role, Attachments.VisibleText(m.blocks), "", |Attachments.Metas(m.blocks)|, None)
  }

  lemma SmallLettersStay(s: string)
    requires s != "" && forall c :: c in s ==> 'a' <= c <= 'z'
    ensures Lowered(TrimSpace(s)) == s
  {
    assert Snug(s) by { assert s[0] in s && s[|s| - 1] in s; }
    SnugTrims(s);
    forall i | 0 <= i < |s| ensures LowerChar(s[i]) == s[i] { assert s[i] in s; }
    assert Map(LowerChar, s) == s;
  }

  lemma UserIsSpelledOut()
    ensures Lowered(TrimSpace("user")) == "user" && Lowered(TrimSpace("assistant")) == "assistant"
    ensures Lowered(TrimSpace("tool")) == "tool"
  {
    SmallLettersStay("user");
    SmallLettersStay("assistant");
    SmallLettersStay("tool");
  }

  lemma InkOfParts(a: string, b: string)
    ensures HistoryTurns.HasInk(a + b) <==> HistoryTurns.HasInk(a) || HistoryTurns.HasInk(b)
  {
    if c :| c in a && !IsSpace(c) { assert c in a + b; }
    if c :| c in b && !IsSpace(c) { assert c in a + b; }
  }

  /** A built turn is read back exactly when its own text or a fenced text has something to show
      or it has a chip, and then with the text and as many chips as it shows live; stripping
      its bytes changes none of it. */
  lemma BuiltTurnIsReadBack(env: Attachments.Env, input: string, refs: seq<Attachments.Ref>, id: string, turn: string,
                            at: int)
    requires Attachments.Build(Some(env), input, refs).Ok?
    ensures var m := Attachments.Build(Some(env), input, refs).value;
      var texts := Attachments.AllText(env, Attachments.LANES, refs);
      var chips := Attachments.AllMetas(env, Attachments.LANES, refs);
      var row := HistoryTurns.Row(id, turn, at, StoredUser(m));
      StoredUser(Attachments.Demote(m)) == StoredUser(m)
      && (HistoryTurns.Visible(row) <==> HistoryTurns.HasInk(input) || HistoryTurns.HasInk(texts) || chips != [])
      && (HistoryTurns.Visible(row) ==>
            HistoryTurns.Read(row).shows
            == Some(HistoryTurns.Shown(HistoryTurns.MessageCompleted("user", input + texts, "", |chips|), id, turn, at))
            && DrainEvents.Begin(Some(Attachments.VisibleText(m.blocks)), "").events
               == [DrainEvents.UserMessage(input + texts)])
  {
    var m := Attachments.Build(Some(env), input, refs).value;
    var row := HistoryTurns.Row(id, turn, at, StoredUser(m));
    Attachments.BuiltTurnShows(env, input, refs);
    Attachments.DemotionIsInvisible(m);
    InkOfParts(input, Attachments.AllText(env, Attachments.LANES, refs));
    UserIsSpelledOut();
    HistoryTurns.RowIsTold(row);
  }

  /** The row a message event is stored as. */
  function StoredMessage(e: DrainEvents.Event, usage: Option<HistoryTurns.Charge>): HistoryTurns.Entry
    requires e.MessageCompleted?
  {
    HistoryTurns.Message(e.role, e.content, e.reasoning, 0, usage)
  }

  lemma MessageIsReadBack(e: DrainEvents.Event, usage: Option<HistoryTurns.Charge>, id: string, turn: string, at: int)
    requires e.MessageCompleted? && e.role in ["user", "tool", "assistant"]
    ensures var row := HistoryTurns.Row(id, turn, at, StoredMessage(e, usage));
      HistoryTurns.Read(row).shows
      == if e.role != "tool" && (HistoryTurns.HasInk(e.content) || HistoryTurns.HasInk(e.reasoning)) then
           Some(HistoryTurns.Shown(HistoryTurns.MessageCompleted(e.role, e.content, e.reasoning, 0), id, turn, at))
         else None
  {
    UserIsSpelledOut();
    HistoryTurns.RowIsTold(HistoryTurns.Row(id, turn, at, StoredMessage(e, usage)));
  }

  /** A message told live is read back, saying the same, exactly when it is not a tool's and not
      all white space. */
  lemma LiveMessageIsReadBack(userText: Option<string>, partial: string, events: seq<DrainEvents.AgentEvent>,
                              e: DrainEvents.Event, usage: Option<HistoryTurns.Charge>, id: string, turn: string,
                              at: int)
    requires e in DrainEvents.Drain(DrainEvents.Begin(userText, partial), events).events && e.MessageCompleted?
    ensures var row := HistoryTurns.Row(id, turn, at, StoredMessage(e, usage));
      HistoryTurns.Read(row).shows
      == if e.role != "tool" && (HistoryTurns.HasInk(e.content) || HistoryTurns.HasInk(e.reasoning)) then
           Some(HistoryTurns.Shown(HistoryTurns.MessageCompleted(e.role, e.content, e.reasoning, 0), id, turn, at))
         else None
  {
    assert e.role in ["user", "tool", "assistant"] by {
      DrainEvents.EveryMessageSpeaks(DrainEvents.Begin(userText, partial), events);
    }
    MessageIsReadBack(e, usage, id, turn, at);
  }
}
