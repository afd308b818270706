/** A turn that is stopped right after a checkpoint: its round is stored twice, in the
    checkpoint and again after it. */
module StoppedAtCheckpoint {
  import opened Options
  import opened Messages
  import opened Selection
  import opened ToolPairs
  import opened ToolCalls
  import opened Compaction
  import opened History
  import opened TurnLoop
  import opened TurnSafety
  import opened TurnClosing
  import opened Transcript
  import opened StoppedTurns
  import opened CleanCuts
  import opened Session
  import RequestViews

  const ONE_CALL := [Call("a", "read", "{}")]

  function OneRound(): seq<Message> {
    Round("", ONE_CALL, OneCall("read", "{}").results)
  }

  /** The user's message and one tool round. */
  function Asked(text: string): seq<Message> {
    [Note(User, text)] + OneRound()
  }

  function Checkpointed(text: string, summary: string): seq<Message> {
    Asked(text) + [SummaryMessage(summary)]
  }

  // ---- The checkpoint ---------------------------------------------------------------

  function AskedShapes(): seq<Shape> {
    [Shape(false, [], [])] + [Shape(true, ["a"], [])] + [Shape(false, [], ["a"])]
  }

  lemma {:induction false} AskedIsSound()
    ensures Sound(AskedShapes())
  {
    SoundPlain([], Shape(false, [], []));
    assert [] + [Shape(false, [], [])] == [Shape(false, [], [])];
    SoundRound([Shape(false, [], [])], ["a"]);
  }

  lemma {:induction false} ShapesOfAsked(text: string)
    ensures Shapes(Asked(text)) == AskedShapes()
  {
    ShapesWithNote([], User, text);
    assert [] + [Note(User, text)] == [Note(User, text)];
    assert [] + [Shape(false, [], [])] == [Shape(false, [], [])];
    ShapesWithRound([Note(User, text)], "", ONE_CALL, OneCall("read", "{}").results);
    assert CallIds(ONE_CALL) == ["a"];
  }

  lemma {:induction false} RoundIsNoSummary()
    ensures !IsSummary(OneRound()[0]) && !IsSummary(OneRound()[1])
  {
    RequestViews.RoundText("", ONE_CALL, OneCall("read", "{}").results);
    NoTextIsNoSummary(OneRound()[0]);
    NoTextIsNoSummary(OneRound()[1]);
  }

  lemma {:induction false} ThreeAreRecent(ms: seq<Message>)
    requires |ms| == 3 && forall i | 0 <= i < 3 :: !IsSummary(ms[i])
    ensures RecentTail(ThreeMessages(), ms) == {0, 1, 2}
  {
    var v := ThreeMessages().Lens();
    assert RecentCut(v, ms, 0, 0) == 0;
    assert RecentCut(v, ms, 1, 1) == 0;
    assert RecentCut(v, ms, 2, 2) == 0;
    assert RecentCut(v, ms, 3, 3) == 0;
  }

  lemma {:induction false} ThreeStay(calls: Column, results: Column, order: seq<nat>)
    requires |calls| == 3 && AnsweredNext(calls, results) && Distinct(calls) && Elements(order) == {0, 1, 2}
    ensures CompletePairs(calls, results, order) == {0, 1, 2}
  {
    OnePassClosesRounds(calls, results, order);
    assert results[0] == {} && calls[2] == {};
  }

  lemma {:induction false} WholeTailIsKept(b: Budgets, ms: seq<Message>, order: seq<nat>, summary: string)
    requires VisitsTail(b, ms, order) && forall i: nat | i < |ms| :: i in Tail(b, ms, order)
    ensures Replacement(b, ms, order, summary) == ms + [SummaryMessage(summary)]
  {
    PickAll(ms, Kept(b, ms, order), |ms|);
    ReplacementIsPicked(b, ms, order, summary);
    assert ms[..|ms|] == ms;
  }

  /** Three messages in the shape of the loop that all fit are all kept. */
  lemma {:induction false} ThreeAreKept(ms: seq<Message>, order: seq<nat>, summary: string)
    requires |ms| == 3 && Sound(Shapes(ms)) && forall i | 0 <= i < 3 :: !IsSummary(ms[i])
    requires VisitsTail(ThreeMessages(), ms, order)
    ensures Replacement(ThreeMessages(), ms, order, summary) == ms + [SummaryMessage(summary)]
  {
    ThreeAreRecent(ms);
    OrderedColumns(ms);
    ThreeStay(Calls(ms), Results(ms), order);
    WholeTailIsKept(ThreeMessages(), ms, order, summary);
  }

  // ---- The search for the turn's messages -------------------------------------------

  lemma {:induction false} LeadingCharacterStays(s: string)
    requires s != "" && !IsSpace(s[0])
    ensures Strip(s) != "" && Strip(s)[0] == s[0]
  {
    var lead, trail := StripIsExact(s);
  }

  lemma {:induction false} SummaryStartsNothing(text: string, summary: string)
    requires text != "" && text[0] != '['
    ensures !StartsTurn(SummaryMessage(summary), text)
  {
    SummarySays(summary);
    LeadingCharacterStays("[Context checkpoint summary]\n" + Strip(summary));
  }

  lemma {:induction false} RoundStartsNothing(text: string)
    ensures !StartsTurn(OneRound()[0], text) && !StartsTurn(OneRound()[1], text)
  {
    RoundShapes("", ONE_CALL, OneCall("read", "{}").results);
    assert CallIds(ONE_CALL) == ["a"];
    assert ShapeOf(OneRound()[1]) == Shapes(OneRound())[1];
  }

  lemma {:induction false} NoteStarts(text: string)
    requires Strip(text) == text
    ensures StartsTurn(Note(User, text), text)
  {
    OneText(text);
    NoteIsPlain(User, text);
    assert ShapeOf(Note(User, text)).answers == ResIds(Note(User, text));
  }

  lemma {:induction false} FirstStarts(ms: seq<Message>, text: string)
    requires |ms| == 4 && StartsTurn(ms[0], text) && forall i | 1 <= i < 4 :: !StartsTurn(ms[i], text)
    ensures LastStart(ms, text, 4) == Some(0)
  {
    assert LastStart(ms, text, 1) == Some(0);
    assert LastStart(ms, text, 2) == LastStart(ms, text, 1);
    assert LastStart(ms, text, 3) == LastStart(ms, text, 2);
    assert LastStart(ms, text, 4) == LastStart(ms, text, 3);
  }

  /** The search goes back past the round to the user's message. */
  lemma {:induction false} FoundBeforeRound(text: string, summary: string)
    requires text != "" && text[0] != '[' && Strip(text) == text
    ensures TurnMessages(Checkpointed(text, summary), 4, text) == Checkpointed(text, summary)
  {
    var ms := Checkpointed(text, summary);
    SummaryStartsNothing(text, summary);
    RoundStartsNothing(text);
    NoteStarts(text);
    assert ms == [Note(User, text), OneRound()[0], OneRound()[1], SummaryMessage(summary)];
    FirstStarts(ms, text);
    assert ms[0..] == ms;
  }

  // ---- The run ----------------------------------------------------------------------

  const INTERRUPT := Event(true, None, false, None, Cancelled)

  function Compacting(made: Checkpoint): Event {
    Event(false, None, true, Some(made), Cancelled)
  }

  lemma {:induction false} CallJoins(c: Config, s: Turn)
    requires Unspoilt(s) && s.control.budget >= 2 && s.successes == map[]
    ensures var t := Pass(c, s, Plainly(Replied(OneCall("read", "{}"))));
      Live(t) && t.chat.messages == s.chat.messages + OneRound() && t.chat.lastCompacted == s.chat.lastCompacted
  {
    var reply := OneCall("read", "{}");
    OneCallRuns(c, s, "read", "{}");
    OneIsKept('a', "read", "{}");
    assert Deduplicate(reply.calls) == ONE_CALL;
    AnyCallIff(ONE_CALL, (x: Call) => AtLimit(s.successes, x));
    AnyCallIff(ONE_CALL, Invalid);
    assert !AllCalls(ONE_CALL, (x: Call) => PermissionRequired(reply.results(x.id)));
    AnyCallIff(ONE_CALL, (x: Call) => HardDenied(reply.results(x.id)));
    AnyCallIff(ONE_CALL, (x: Call) => QuotaExceeded(reply.results(x.id)));
    CallChat(c.say, Ask(s).(transient := ""), reply);
  }

  lemma {:induction false} CallChat(w: Wording, s: Turn, reply: Reply)
    requires s.control.budget >= 2
    ensures var t := AfterTools(w, Execute(s, ONE_CALL, reply), Fine);
      t.chat.messages == s.chat.messages + Round(reply.text, ONE_CALL, reply.results)
          && t.chat.lastCompacted == s.chat.lastCompacted
  {
  }

  lemma {:induction false} CheckpointThenStop(c: Config, s: Turn, made: Checkpoint)
    requires Live(s) && s.chat.lastCompacted == -1 && Compact(c.budgets, s.chat.messages, Some(made)).Some?
    ensures var r := Compact(c.budgets, s.chat.messages, Some(made)).value;
      var t := Run(c, s, [Compacting(made), INTERRUPT]);
      t.control.status.Stopped? && t.chat.messages == r && t.chat.userIndex == |r| && t.chat.stored.history == r
  {
    var events := [Compacting(made), INTERRUPT];
    var t := Pass(c, s, Compacting(made));
    assert CompactsFirst(c, s, Compacting(made)) && Live(t);
    assert events[1..] == [INTERRUPT] && [INTERRUPT][1..] == [];
    assert Run(c, t, [INTERRUPT]) == Run(c, Pass(c, t, INTERRUPT), []) == End(t, Stopped);
  }

  // ---- What is stored ---------------------------------------------------------------

  /** The user asks for something, one call runs, its history is compacted, the user stops. */
  function OneTurn(text: string, made: Checkpoint, closing: string): Visit {
    Visit(Note(User, text), text, None, 2, [], None,
        [Plainly(Replied(OneCall("read", "{}"))), Compacting(made), INTERRUPT], closing)
  }

  lemma {:induction false} OneTurnStarts(c: Config, v: Visit)
    requires v.checkpoint.None?
    ensures var s := BuildTurn(c, [], v);
      && s == Start([v.message], v.maxIterations, false, v.contexts, v.skill) && s.chat.messages == [v.message]
      && s.chat.lastCompacted == -1 && s.control.budget == v.maxIterations && s.successes == map[]
      && (v.maxIterations > 0 ==> Unspoilt(s))
  {
    assert [] + [v.message] == [v.message];
  }

  lemma {:induction false} CallFirst(c: Config, text: string, made: Checkpoint, closing: string)
    ensures var v := OneTurn(text, made, closing);
      var t := Pass(c, BuildTurn(c, [], v), v.events[0]);
      Live(BuildTurn(c, [], v)) && Live(t) && t.chat.messages == Asked(text) && t.chat.lastCompacted == -1
  {
    var v := OneTurn(text, made, closing);
    OneTurnStarts(c, v);
    CallJoins(c, BuildTurn(c, [], v));
  }

  lemma {:induction false} AskedCompacts(b: Budgets, text: string, made: Checkpoint)
    requires b == ThreeMessages() && !IsSummary(Note(User, text)) && VisitsTail(b, Asked(text), made.order)
    ensures Compact(b, Asked(text), Some(made)) == Some(Checkpointed(text, made.summary))
  {
    RoundIsNoSummary();
    ShapesOfAsked(text);
    AskedIsSound();
    ThreeAreKept(Asked(text), made.order, made.summary);
  }

  lemma {:induction false} RunFirst(c: Config, s: Turn, events: seq<Event>)
    requires events != [] && Live(s)
    ensures Run(c, s, events) == Run(c, Pass(c, s, events[0]), events[1..])
  {
  }

  /** The turn has just stored all its messages, and has no more of its own. */
  predicate EndsAtCheckpoint(t: Turn, r: seq<Message>) {
    t.control.status.Stopped? && t.chat.messages == r && t.chat.userIndex == |r| && t.chat.stored.history == r
  }

  lemma {:induction false} OneTurnEnds(c: Config, text: string, made: Checkpoint, closing: string)
    requires c.budgets == ThreeMessages() && !IsSummary(Note(User, text))
    requires VisitsTail(c.budgets, Asked(text), made.order)
    ensures EndsAtCheckpoint(TurnEnd(c, [], OneTurn(text, made, closing)), Checkpointed(text, made.summary))
  {
    var v := OneTurn(text, made, closing);
    CallFirst(c, text, made, closing);
    AskedCompacts(c.budgets, text, made);
    CheckpointThenStop(c, Pass(c, BuildTurn(c, [], v), v.events[0]), made);
    RunFirst(c, BuildTurn(c, [], v), v.events);
    assert v.events[1..] == [Compacting(made), INTERRUPT];
  }

  lemma {:induction false} FullIsComplete(ms: seq<Message>)
    requires Ordered(Shapes(ms)) && forall i | 0 <= i < |ms| :: ms[i].content != Blocks([])
    ensures Complete(ms) == ms
  {
    CompleteIsPicked(ms);
    PickAll(ms, Filled(ms), |ms|);
    assert ms[..|ms|] == ms;
  }

  lemma {:induction false} RoundHasContent()
    ensures OneRound()[0].content != Blocks([]) && OneRound()[1].content != Blocks([])
  {
    var use := UseBlocks(ONE_CALL);
    assert [] + use == use && |use| == 1;
  }

  lemma {:induction false} CheckpointedIsComplete(text: string, summary: string)
    ensures Complete(Checkpointed(text, summary)) == Checkpointed(text, summary)
  {
    var ms := Checkpointed(text, summary);
    ShapesOfAsked(text);
    AskedIsSound();
    SummaryJoins(Asked(text), summary);
    RoundHasContent();
    assert ms == [Note(User, text), OneRound()[0], OneRound()[1], SummaryMessage(summary)];
    FullIsComplete(ms);
  }

  lemma {:induction false} GoIsPlain()
    ensures Strip("go") == "go" && !IsSummary(Note(User, "go"))
  {
    OneText("go");
    assert !IsSpace("go"[0]) && !IsSpace("go"[1]);
    assert |SUMMARY_MARK| > 2 && |LEGACY_SUMMARY_MARK| > 2;
  }

  lemma {:induction false} OneTurnIsFresh(c: Config, made: Checkpoint, closing: string)
    ensures FreshTurn(c, [], OneTurn("go", made, closing))
  {
    var v := OneTurn("go", made, closing);
    var s := BuildTurn(c, [], v);
    OneTurnStarts(c, v);
    NoteIsPlain(User, "go");
    forall x
      ensures x !in UsedIds(Shapes(s.chat.messages))
    {
    }
    assert FreshIds(s, v.events[0].outcome.reply);
    LaterEventsAreFresh(c, Pass(c, s, v.events[0]), v.events[1..]);
  }

  lemma {:induction false} LaterEventsAreFresh(c: Config, s: Turn, events: seq<Event>)
    requires forall e | e in events :: !e.outcome.Replied?
    ensures FreshRun(c, s, events)
    decreases |events|
  {
    if events != [] && Live(s) {
      LaterEventsAreFresh(c, Pass(c, s, events[0]), events[1..]);
    }
  }

  lemma {:induction false} CallIsThere(text: string, summary: string)
    ensures !NoCalls(Checkpointed(text, summary))
  {
    var r := Checkpointed(text, summary);
    ShapesOfAsked(text);
    assert Shapes(Asked(text))[1] == ShapeOf(r[1]) && UseIds(r[1]) == ["a"];
    assert r[1] in r;
  }

  lemma {:induction false} StoppedWhole(t: Turn, r: seq<Message>, text: string, closing: string)
    requires EndsAtCheckpoint(t, r) && TurnMessages(r, |r|, text) == r && Complete(r) == r
    requires r != [] && !r[|r| - 1].role.Assistant? && !NoCalls(r)
    ensures HandedOn(t, text, closing) == r + (r + [Note(Assistant, Marker(closing))])
    ensures !StopsProperly(t, text)
  {
    assert !EndsWith(r, Marker(closing));
  }

  lemma {:induction false} EverythingTwice(t: Turn, text: string, summary: string, closing: string)
    requires text != "" && text[0] != '[' && Strip(text) == text && EndsAtCheckpoint(t, Checkpointed(text, summary))
    ensures var r := Checkpointed(text, summary);
      HandedOn(t, text, closing) == r + (r + [Note(Assistant, Marker(closing))])
    ensures !StopsProperly(t, text)
  {
    var r := Checkpointed(text, summary);
    FoundBeforeRound(text, summary);
    CheckpointedIsComplete(text, summary);
    CallIsThere(text, summary);
    assert |r| == 4 && r[3] == SummaryMessage(summary);
    StoppedWhole(t, r, text, closing);
  }

  /** The case is real: everything the checkpoint holds is stored a second time after it, the
      call and the result with their id included, although every id was new. */
  lemma {:induction false} RoundIsStoredTwice(c: Config, made: Checkpoint, closing: string)
    requires c.budgets == ThreeMessages() && VisitsTail(c.budgets, Asked("go"), made.order)
    ensures var v, r := OneTurn("go", made, closing), Checkpointed("go", made.summary);
      && FreshTurn(c, [], v) && !Sound(Shapes(AfterTurn(c, [], v)))
      && AfterTurn(c, [], v) == r + (r + [Note(Assistant, Marker(closing))])
  {
    var v, r := OneTurn("go", made, closing), Checkpointed("go", made.summary);
    GoIsPlain();
    OneTurnEnds(c, "go", made, closing);
    EverythingTwice(TurnEnd(c, [], v), "go", made.summary, closing);
    OneTurnIsFresh(c, made, closing);
    FreshTurnHandsOnSoundIff(c, [], v);
  }
}
