/** A checkpoint keeps a conversation paired exactly when it cuts it cleanly: for one checkpoint,
    and for the checkpoints of whole turns. */
module CleanCuts {
  import opened Options
  import opened Messages
  import opened Selection
  import opened ToolPairs
  import opened Compaction
  import opened History
  import opened TurnLoop
  import opened TurnSafety
  import opened RequestViews

  // ---- One checkpoint ---------------------------------------------------------------

  /** What is open where a message is picked, if no call is picked without its answer. */
  lemma {:induction false} OpenOfSelect(ss: seq<Shape>, keep: set<nat>, hi: nat)
    requires hi <= |ss| && forall i: nat :: i < |ss| && i in keep && ss[i].uses != [] ==> i + 1 in keep
    ensures Open(Select(ss, keep, hi)) == if hi > 0 && hi - 1 in keep then ss[hi - 1].uses else []
  {
    if hi > 0 {
      OpenOfSelect(ss, keep, hi - 1);
      if hi - 1 !in keep {
        assert Select(ss, keep, hi) == Select(ss, keep, hi - 1) + [] == Select(ss, keep, hi - 1);
        assert hi > 1 && hi - 2 in keep ==> ss[hi - 2].uses == [];
      }
    }
  }

  lemma {:induction false} PrefixInOrder(ss: seq<Shape>, s: Shape)
    requires AnswersInOrder(ss + [s])
    ensures AnswersInOrder(ss) && s.answers == Open(ss)
  {
    var all := ss + [s];
    assert all[|ss|] == s;
    if ss == [] {
      assert all[0].answers == [];
    } else {
      assert all[0].answers == ss[0].answers;
      assert all[|ss| - 1].uses == ss[|ss| - 1].uses && all[|ss|].answers == s.answers;
    }
    forall i, j | 0 <= i < |ss| - 1 && j == i + 1
      ensures ss[j].answers == ss[i].uses
    {
      assert all[i].uses == ss[i].uses && all[j].answers == ss[j].answers;
    }
  }

  lemma {:induction false} SelectPrefixInOrder(ss: seq<Shape>, keep: set<nat>, hi: nat)
    requires 0 < hi <= |ss| && AnswersInOrder(Select(ss, keep, hi))
    ensures AnswersInOrder(Select(ss, keep, hi - 1))
    ensures hi - 1 in keep ==> ss[hi - 1].answers == Open(Select(ss, keep, hi - 1))
  {
    var before := Select(ss, keep, hi - 1);
    if hi - 1 in keep {
      PrefixInOrder(before, ss[hi - 1]);
    } else {
      assert Select(ss, keep, hi) == before + [] == before;
    }
  }

  /** In a picked conversation that is in order, a message answers what is open before it. */
  lemma {:induction false} AnswersOfSelect(ss: seq<Shape>, keep: set<nat>, i: nat, hi: nat)
    requires i < hi <= |ss| && i in keep && AnswersInOrder(Select(ss, keep, hi))
    ensures ss[i].answers == Open(Select(ss, keep, i))
  {
    SelectPrefixInOrder(ss, keep, hi);
    if i < hi - 1 {
      AnswersOfSelect(ss, keep, i, hi - 1);
    }
  }

  lemma {:induction false} NextIsInTail(b: Budgets, ms: seq<Message>, i: nat)
    requires i in RecentTail(b, ms) && i + 1 < |ms| && !IsSummary(ms[i + 1])
    ensures i + 1 in RecentTail(b, ms)
  {
  }

  lemma {:induction false} AnswerIsNoSummary(ms: seq<Message>, i: nat)
    requires AllSilent()(ms) && i < |ms| && Results(ms)[i] != {}
    ensures !IsSummary(ms[i])
  {
    assert ms[i] in ms && ResIds(ms[i]) != [];
    NoTextIsNoSummary(ms[i]);
  }

  lemma {:induction false} CallIsAnswered(calls: Column, results: Column, i: nat)
    requires AnsweredNext(calls, results) && i < |calls| && calls[i] != {}
    ensures i + 1 < |calls| && results[i + 1] == calls[i] && calls[i + 1] == {}
  {
    assert results[i + 1] == calls[i];
  }

  lemma {:induction false} AnswerStays(calls: Column, results: Column, order: seq<nat>, i: nat)
    requires AnsweredNext(calls, results) && Within(|calls|, Elements(order))
    requires i in Elements(order) && calls[i] != {}
    requires i + 1 < |calls| && results[i + 1] != {} ==> i + 1 in Elements(order)
    ensures i + 1 in CompletePairs(calls, results, order)
  {
    CallIsAnswered(calls, results, i);
    WholeRoundStays(calls, results, order, i + 1);
  }

  lemma {:induction false} AnswerIsPicked(b: Budgets, ms: seq<Message>, i: nat)
    requires AllSilent()(ms) && i in RecentTail(b, ms) && i + 1 < |ms| && Results(ms)[i + 1] != {}
    ensures i + 1 in RecentTail(b, ms)
  {
    AnswerIsNoSummary(ms, i + 1);
    NextIsInTail(b, ms, i);
  }

  /** In the tail of a checkpoint a call is never kept without its answer: answers carry no
      text, so none is taken for a summary, and they come after their calls. */
  lemma {:induction false} CallsKeepAnswers(b: Budgets, ms: seq<Message>, order: seq<nat>, i: nat)
    requires Ordered(Shapes(ms)) && AllSilent()(ms) && VisitsTail(b, ms, order)
    requires i in Tail(b, ms, order) && Calls(ms)[i] != {}
    ensures i + 1 in Tail(b, ms, order)
  {
    OrderedColumns(ms);
    if i + 1 < |ms| && Results(ms)[i + 1] != {} {
      AnswerIsPicked(b, ms, i);
    }
    AnswerStays(Calls(ms), Results(ms), order, i);
  }

  lemma {:induction false} PickedIsOrdered(ms: seq<Message>, kept: set<nat>, summary: string)
    requires Ordered(Shapes(Pick(ms, kept, 0, |ms|) + [SummaryMessage(summary)]))
    ensures AnswersInOrder(Select(Shapes(ms), kept, |ms|))
  {
    SummaryShape(Pick(ms, kept, 0, |ms|), summary);
    ShapesOfPick(ms, kept, |ms|);
    PrefixInOrder(Select(Shapes(ms), kept, |ms|), Shape(false, [], []));
  }

  /** A kept answer has its call kept right before it, in the tail. */
  lemma {:induction false} AnswersKeepCalls(b: Budgets, ms: seq<Message>, order: seq<nat>, summary: string, i: nat)
    requires Ordered(Shapes(ms)) && AllSilent()(ms) && VisitsTail(b, ms, order)
    requires Ordered(Shapes(Replacement(b, ms, order, summary)))
    requires i in Tail(b, ms, order) && Results(ms)[i] != {}
    ensures i > 0 && i - 1 in Tail(b, ms, order)
  {
    var ss, tail, users, kept := Shapes(ms), Tail(b, ms, order), OlderUsers(b, ms, order), Kept(b, ms, order);
    OrderedColumns(ms);
    KeptAreNotSummaries(b, ms, order);
    forall u | u in users
      ensures u < |ms| && ss[u].uses == []
    {
      TypedIsPlain(ms, u);
    }
    forall p: nat | p < |ss| && p in kept && ss[p].uses != []
      ensures p + 1 in kept
    {
      assert p in tail && Calls(ms)[p] != {};
      CallsKeepAnswers(b, ms, order, p);
    }
    ReplacementIsPicked(b, ms, order, summary);
    PickedIsOrdered(ms, kept, summary);
    AnswersOfSelect(ss, kept, i, |ss|);
    OpenOfSelect(ss, kept, i);
    assert ss[i].answers != [];
  }

  lemma {:induction false} OrderedCheckpointIsTogether(b: Budgets, ms: seq<Message>, order: seq<nat>, summary: string)
    requires Ordered(Shapes(ms)) && AllSilent()(ms) && VisitsTail(b, ms, order)
    requires Ordered(Shapes(Replacement(b, ms, order, summary)))
    ensures Together(Calls(ms), Results(ms), Tail(b, ms, order))
  {
    var tail := Tail(b, ms, order);
    forall i | i in tail && Calls(ms)[i] != {}
      ensures i + 1 in tail
    {
      CallsKeepAnswers(b, ms, order, i);
    }
    forall i | i in tail && Results(ms)[i] != {}
      ensures i > 0 && i - 1 in tail
    {
      AnswersKeepCalls(b, ms, order, summary, i);
    }
  }

  /** Checkpoints of a conversation stay in order, in whatever order the tail is visited,
      exactly when the cut is clean. */
  lemma {:induction false} CheckpointsStayOrderedIff(b: Budgets, ms: seq<Message>, summary: string)
    requires Ordered(Shapes(ms)) && AllSilent()(ms)
    ensures (forall order: seq<nat> | VisitsTail(b, ms, order) :: Ordered(Shapes(Replacement(b, ms, order, summary))))
        <==> CutCleanly(b, ms)
  {
    CleanCutIff(b, ms);
    if CutCleanly(b, ms) {
      forall order: seq<nat> | VisitsTail(b, ms, order)
        ensures Ordered(Shapes(Replacement(b, ms, order, summary)))
      {
        CheckpointIsOrdered(b, ms, order, summary);
      }
    } else {
      var order: seq<nat> :| VisitsTail(b, ms, order) && !Together(Calls(ms), Results(ms), Tail(b, ms, order));
      if Ordered(Shapes(Replacement(b, ms, order, summary))) {
        OrderedCheckpointIsTogether(b, ms, order, summary);
      }
    }
  }

  // ---- Whole runs -------------------------------------------------------------------

  /** The same checkpoint, but for the order in which its tail was visited. */
  predicate SameCheckpoint(a: Option<Checkpoint>, b: Option<Checkpoint>) {
    a.Some? == b.Some? && (a.Some? ==> a.value.summary == b.value.summary)
  }

  ghost predicate SameOutcome(a: Outcome, b: Outcome) {
    if a.Failed? && b.Failed? then
      SameCheckpoint(a.error.checkpoint, b.error.checkpoint) && b.error == a.error.(checkpoint := b.error.checkpoint)
    else a == b
  }

  /** The same event, but for the visiting orders of its checkpoints. */
  ghost predicate Alike(a: Event, b: Event) {
    && b == a.(midTurn := b.midTurn, outcome := b.outcome)
    && SameCheckpoint(a.midTurn, b.midTurn) && SameOutcome(a.outcome, b.outcome)
  }

  ghost predicate AllAlike(a: seq<Event>, b: seq<Event>) {
    |a| == |b| && forall i :: 0 <= i < |a| ==> Alike(a[i], b[i])
  }

  /** The history is paired before every pass of the run and after the last one. */
  ghost predicate StaysPaired(c: Config, s: Turn, events: seq<Event>)
    decreases |events|
  {
    Paired(s) && (events == [] || !Live(s) || StaysPaired(c, Pass(c, s, events[0]), events[1..]))
  }

  lemma {:induction false} TidyRunStaysPaired(c: Config, s: Turn, events: seq<Event>)
    requires Paired(s) && TidyRun(c, s, events)
    ensures StaysPaired(c, s, events)
    decreases |events|
  {
    if events != [] && Live(s) {
      TidyPassStaysPaired(c, s, events[0]);
      TidyRunStaysPaired(c, Pass(c, s, events[0]), events[1..]);
    }
  }

  lemma {:induction false} TidyPassStaysPaired(c: Config, s: Turn, e: Event)
    requires Live(s) && Paired(s) && TidyPass(c, s, e)
    ensures Paired(Pass(c, s, e))
  {
    InOrderIsRobust(c.say);
    TidyPassAllows(c, s, e);
    PassKeeps(c, InOrder(), s, e);
  }

  lemma {:induction false} PassStaysSilent(c: Config, s: Turn, e: Event)
    requires Live(s) && AllSilent()(s.chat.messages)
    ensures AllSilent()(TakeSteer(s, e.steer).chat.messages) && AllSilent()(Pass(c, s, e).chat.messages)
  {
    AllSilentIsRobust(c.say);
    SilentPass(c, s, e);
    PassKeeps(c, AllSilent(), s, e);
  }

  lemma {:induction false} UncleanCutBreaks(b: Budgets, ms: seq<Message>, summary: string) returns (made: Checkpoint)
    requires Ordered(Shapes(ms)) && AllSilent()(ms) && |ms| > 1 && !CutCleanly(b, ms)
    ensures made.summary == summary && Compact(b, ms, Some(made)).Some?
    ensures !Ordered(Shapes(Compact(b, ms, Some(made)).value))
  {
    CheckpointsStayOrderedIff(b, ms, summary);
    var order: seq<nat> :| VisitsTail(b, ms, order) && !Ordered(Shapes(Replacement(b, ms, order, summary)));
    made := Checkpoint(summary, order);
    assert Compact(b, ms, Some(made)) == Some(Replacement(b, ms, order, summary));
  }

  /** A pass whose checkpoint cuts uncleanly leaves the history unpaired, in some order. */
  lemma {:induction false} UntidyPassBreaks(c: Config, s: Turn, e: Event) returns (f: Event)
    requires Live(s) && Paired(s) && AllSilent()(s.chat.messages) && !TidyPass(c, s, e)
    ensures Alike(e, f) && !Paired(Pass(c, s, f))
  {
    var t := TakeSteer(s, e.steer);
    SteerStaysPaired(c.say, s, e.steer);
    PassStaysSilent(c, s, e);
    if CompactsFirst(c, t, e) {
      var made := UncleanCutBreaks(c.budgets, t.chat.messages, e.midTurn.value.summary);
      f := e.(midTurn := Some(made));
      assert CompactsFirst(c, t, f);
    } else {
      var made := UncleanCutBreaks(c.budgets, t.chat.messages, e.outcome.error.checkpoint.value.summary);
      f := e.(outcome := Failed(e.outcome.error.(checkpoint := Some(made))));
      OverflowAdopts(c, Ask(t), f.outcome.error);
    }
  }

  lemma {:induction false} OverflowAdopts(c: Config, s: Turn, e: Error)
    requires e.overflow && !s.control.overflowRetried && Compact(c.budgets, s.chat.messages, e.checkpoint).Some?
    ensures OnFailure(c, s, e).chat.messages == Compact(c.budgets, s.chat.messages, e.checkpoint).value
  {
  }

  lemma {:induction false} AlikeFirst(e: Event, f: Event, rest: seq<Event>, others: seq<Event>)
    requires Alike(e, f) && AllAlike(rest, others)
    ensures AllAlike([e] + rest, [f] + others)
  {
    forall i | 0 <= i <= |rest|
      ensures Alike(([e] + rest)[i], ([f] + others)[i])
    {
      assert i > 0 ==> Alike(rest[i - 1], others[i - 1]);
    }
  }

  lemma {:induction false} AlikeSelf(events: seq<Event>)
    ensures AllAlike(events, events)
  {
  }

  lemma {:induction false} BreaksLater(c: Config, s: Turn, e: Event, rest: seq<Event>)
    requires Live(s) && !StaysPaired(c, Pass(c, s, e), rest)
    ensures !StaysPaired(c, s, [e] + rest)
  {
    assert ([e] + rest)[0] == e && ([e] + rest)[1..] == rest;
  }

  lemma {:induction false} UntidyRunBreaks(c: Config, s: Turn, events: seq<Event>) returns (others: seq<Event>)
    requires Paired(s) && AllSilent()(s.chat.messages) && !TidyRun(c, s, events)
    ensures AllAlike(events, others) && !StaysPaired(c, s, others)
    decreases |events|
  {
    var e, rest := events[0], events[1..];
    assert events == [e] + rest;
    if TidyPass(c, s, e) {
      TidyPassStaysPaired(c, s, e);
      PassStaysSilent(c, s, e);
      var worse := UntidyRunBreaks(c, Pass(c, s, e), rest);
      BreaksLater(c, s, e, worse);
      AlikeSelf([e]);
      assert Alike([e][0], [e][0]);
      AlikeFirst(e, e, rest, worse);
      others := [e] + worse;
    } else {
      var f := UntidyPassBreaks(c, s, e);
      BreaksLater(c, s, f, rest);
      AlikeSelf(rest);
      AlikeFirst(e, f, rest, rest);
      others := [f] + rest;
    }
  }

  lemma {:induction false} AlikeAgain(a: seq<Event>, b: seq<Event>, d: seq<Event>)
    requires AllAlike(a, b) && AllAlike(b, d)
    ensures AllAlike(a, d)
  {
    forall i | 0 <= i < |a|
      ensures Alike(a[i], d[i])
    {
      assert Alike(a[i], b[i]) && Alike(b[i], d[i]);
    }
  }

  /** A run keeps its history paired, in whatever orders its tails are visited, exactly when
      none of its checkpoints cuts uncleanly. */
  lemma {:induction false} RunsStayPairedIff(c: Config, s: Turn, events: seq<Event>)
    requires Paired(s) && AllSilent()(s.chat.messages)
    ensures (forall others | AllAlike(events, others) :: StaysPaired(c, s, others))
       <==> (forall others | AllAlike(events, others) :: TidyRun(c, s, others))
  {
    if others :| AllAlike(events, others) && !TidyRun(c, s, others) {
      var worse := UntidyRunBreaks(c, s, others);
      AlikeAgain(events, others, worse);
    } else {
      forall others | AllAlike(events, others)
        ensures StaysPaired(c, s, others)
      {
        TidyRunStaysPaired(c, s, others);
      }
    }
  }

  // ---- A repeated id ----------------------------------------------------------------

  /** Two rounds under one id, as fallback ids make them. */
  function RepeatedHistory(id: string): seq<Message> {
    [Message(Assistant, Blocks([CallFor(id)])), Message(User, Blocks([AnswerTo(id)])),
     Message(Assistant, Blocks([CallFor(id)])), Message(User, Blocks([AnswerTo(id)]))]
  }

  function ThreeMessages(): Budgets {
    Budgets(3, 0, (m: Message) => 1)
  }

  lemma {:induction false} RepeatedBlocks(id: string)
    ensures UsesOf([CallFor(id)]) == [id] && ResultsOf([CallFor(id)]) == [] && TextOf([CallFor(id)]) == ""
    ensures UsesOf([AnswerTo(id)]) == [] && ResultsOf([AnswerTo(id)]) == [id] && TextOf([AnswerTo(id)]) == ""
  {
    assert [CallFor(id)][1..] == [] && [AnswerTo(id)][1..] == [];
    assert UsesOf([CallFor(id)]) == [id] + UsesOf([]) && ResultsOf([AnswerTo(id)]) == [id] + ResultsOf([]);
    assert ResultsOf([CallFor(id)]) == [] + ResultsOf([]) && UsesOf([AnswerTo(id)]) == [] + UsesOf([]);
  }

  lemma {:induction false} RepeatedShapes(id: string)
    requires id != ""
    ensures Ordered(Shapes(RepeatedHistory(id)))
  {
    var ms := RepeatedHistory(id);
    RepeatedBlocks(id);
    var call, answer := Shape(true, [id], []), Shape(false, [], [id]);
    assert Shapes(ms) == [call, answer, call, answer];
    OrderedRound([], [id]);
    OrderedRound([] + [call] + [answer], [id]);
    assert [] + [call] + [answer] + [call] + [answer] == [call, answer, call, answer];
  }

  lemma {:induction false} RepeatedColumns(id: string)
    requires id != ""
    ensures var ms := RepeatedHistory(id);
      Calls(ms) == [{id}, {}, {id}, {}] && Results(ms) == [{}, {id}, {}, {id}] && AllSilent()(ms)
  {
    RepeatedBlocks(id);
    var ids := [id];
    assert Ids(ids) == {id} && Ids([]) == {} by {
      assert ids[0] == id;
    }
  }

  lemma {:induction false} RepeatedTailIsPicked(id: string)
    requires id != ""
    ensures RecentTail(ThreeMessages(), RepeatedHistory(id)) == {1, 2, 3}
  {
    var ms, v := RepeatedHistory(id), ThreeMessages().Lens();
    RepeatedBlocks(id);
    forall i | 0 <= i < 4
      ensures !v.summary(ms[i]) && Cost(v, ms[i]) == 1
    {
      NoTextIsNoSummary(ms[i]);
    }
    assert RecentCut(v, ms, 1, 0) == 1;
    assert RecentCut(v, ms, 2, 1) == 1;
    assert RecentCut(v, ms, 3, 2) == 1;
    assert RecentCut(v, ms, 4, 3) == 1;
  }

  /** The case is real: of these two rounds the scan picks all but the first call, and the
      checkpoint is left with a result without its call, in whatever order it was made. */
  lemma {:induction false} RepeatedIdIsOrphaned(id: string, order: seq<nat>, summary: string)
    requires id != "" && VisitsTail(ThreeMessages(), RepeatedHistory(id), order)
    ensures Ordered(Shapes(RepeatedHistory(id))) && !CutCleanly(ThreeMessages(), RepeatedHistory(id))
    ensures 1 in Tail(ThreeMessages(), RepeatedHistory(id), order)
    ensures 0 !in Kept(ThreeMessages(), RepeatedHistory(id), order)
    ensures !Ordered(Shapes(Replacement(ThreeMessages(), RepeatedHistory(id), order, summary)))
  {
    var b, ms := ThreeMessages(), RepeatedHistory(id);
    RepeatedShapes(id);
    RepeatedColumns(id);
    RepeatedTailIsPicked(id);
    RepeatedIdLeavesAnOrphan(id, order);
    KeptAreNotSummaries(b, ms, order);
    assert 0 !in OlderUsers(b, ms, order) by {
      assert !ms[0].role.User?;
    }
    var tail := Tail(b, ms, order);
    assert Results(ms)[1] != {} && 0 !in tail;
    assert !Together(Calls(ms), Results(ms), tail);
    CleanCutIff(b, ms);
    if Ordered(Shapes(Replacement(b, ms, order, summary))) {
      OrderedCheckpointIsTogether(b, ms, order, summary);
    }
  }
}
