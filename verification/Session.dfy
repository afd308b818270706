/** Turns in sequence: each starts from the history the one before it left, compacted first
    when it has grown too long, and ends with the user's new message. */
module Session {
  import opened Options
  import opened Messages
  import opened Compaction
  import opened History
  import opened TurnLoop
  import opened TurnSafety
  import opened TurnStorage
  import opened StoppedTurns
  import opened RequestViews

  /** What a turn brings: the user's message and its text alone, the checkpoint of its history
      when that is over the threshold, everything that happens in its loop, and the closing
      message the user sees. */
  datatype Visit = Visit(message: Message, text: string, checkpoint: Option<Checkpoint>, maxIterations: int,
                         contexts: seq<string>, skill: Option<string>, events: seq<Event>, closing: string)

  /** The turn as built before its loop: per-turn state is fresh. */
  function BuildTurn(c: Config, history: seq<Message>, v: Visit): Turn {
    Start(Base(c, history, v) + [v.message], v.maxIterations, Compact(c.budgets, history, v.checkpoint).Some?,
        v.contexts, v.skill)
  }

  function Base(c: Config, history: seq<Message>, v: Visit): seq<Message> {
    var made := Compact(c.budgets, history, v.checkpoint);
    if made.Some? then made.value else history
  }

  function TurnEnd(c: Config, history: seq<Message>, v: Visit): Turn {
    Run(c, BuildTurn(c, history, v), v.events)
  }

  /** The history stored after the turn, from which the next one starts. */
  function AfterTurn(c: Config, history: seq<Message>, v: Visit): seq<Message> {
    HandedOn(TurnEnd(c, history, v), v.text, v.closing)
  }

  function Turns(c: Config): (seq<Message>, Visit) -> seq<Message> {
    (history: seq<Message>, v: Visit) => AfterTurn(c, history, v)
  }

  function Fold(step: (seq<Message>, Visit) -> seq<Message>, visits: seq<Visit>, n: nat): seq<Message>
    requires n <= |visits|
  {
    if n == 0 then [] else step(Fold(step, visits, n - 1), visits[n - 1])
  }

  /** The history stored after the first n turns of a session. */
  function HistoryAfter(c: Config, visits: seq<Visit>, n: nat): seq<Message>
    requires n <= |visits|
  {
    Fold(Turns(c), visits, n)
  }

  predicate IsPlain(m: Message) {
    ShapeOf(m).uses == [] && ShapeOf(m).answers == []
  }

  /** Checkpoints cut cleanly in a turn: before its loop and in it. */
  ghost predicate TidyTurn(c: Config, history: seq<Message>, v: Visit) {
    && (Compact(c.budgets, history, v.checkpoint).Some? ==> CutCleanly(c.budgets, history))
    && TidyRun(c, BuildTurn(c, history, v), v.events)
  }

  /** The user sends no tool calls or results, and checkpoints cut cleanly. */
  ghost predicate WellBehavedAt(c: Config, visits: seq<Visit>, n: nat)
    requires n < |visits|
  {
    IsPlain(visits[n].message) && TidyTurn(c, HistoryAfter(c, visits, n), visits[n])
  }

  ghost predicate WellBehaved(c: Config, visits: seq<Visit>) {
    forall n: nat :: n < |visits| ==> WellBehavedAt(c, visits, n)
  }

  /** What holds of an empty history and what every turn keeps holds of every history stored. */
  lemma {:induction false} AlongSession(step: (seq<Message>, Visit) -> seq<Message>, visits: seq<Visit>,
        p: seq<Message> -> bool, n: nat)
    requires n <= |visits| && p([])
    requires forall k: nat {:trigger p(Fold(step, visits, k))} ::
      k < n && p(Fold(step, visits, k)) ==> p(step(Fold(step, visits, k), visits[k]))
    ensures p(Fold(step, visits, n))
  {
    if n > 0 {
      AlongSession(step, visits, p, n - 1);
      assert p(Fold(step, visits, n - 1));
    }
  }

  /** A built turn ends with the user's message, and what it starts from is stored. */
  lemma {:induction false} BuiltTurn(c: Config, history: seq<Message>, v: Visit)
    ensures var s := BuildTurn(c, history, v);
      && s.chat.messages == Base(c, history, v) + [v.message]
      && s.chat.stored == Stored(Base(c, history, v), false)
      && s.trace.requests == [] && Anchored(s)
  {
    var base := Base(c, history, v);
    assert (base + [v.message])[..|base|] == base;
  }

  /** A turn starts from the checkpoint of the stored history, when there is one, and else from that
      history, with the user's message last. */
  lemma {:induction false} TurnStartsFrom(c: Config, history: seq<Message>, v: Visit)
    ensures var s, made := BuildTurn(c, history, v), v.checkpoint;
      var compacted := made.Some? && |history| > 1 && VisitsTail(c.budgets, history, made.value.order);
      && s.chat.messages ==
           (if compacted then Replacement(c.budgets, history, made.value.order, made.value.summary) else history)
           + [v.message]
      && s.chat.userIndex == |s.chat.messages| - 1
      && (compacted <==> s.chat.lastCompacted == |s.chat.messages|)
      && Live(s) == (v.maxIterations > 0) && s.control.budget == v.maxIterations
  {
    BuiltTurn(c, history, v);
  }

  lemma {:induction false} MessageJoins(history: seq<Message>, m: Message)
    requires Ordered(Shapes(history)) && IsPlain(m)
    ensures Ordered(Shapes(history + [m]))
  {
    OrderedPlain(Shapes(history), ShapeOf(m));
    assert Shapes(history + [m]) == Shapes(history) + [ShapeOf(m)];
  }

  lemma {:induction false} TurnStartsPaired(c: Config, history: seq<Message>, v: Visit)
    requires Ordered(Shapes(history)) && IsPlain(v.message)
    requires Compact(c.budgets, history, v.checkpoint).Some? ==> CutCleanly(c.budgets, history)
    ensures Ordered(Shapes(Base(c, history, v)))
    ensures Paired(BuildTurn(c, history, v)) && BuildTurn(c, history, v).trace.requests == []
  {
    if CutCleanly(c.budgets, history) {
      CheckpointInOrder(c.budgets, history, v.checkpoint);
    }
    var base := Base(c, history, v);
    MessageJoins(base, v.message);
    BuiltTurn(c, history, v);
  }

  lemma {:induction false} TurnKeepsPairs(c: Config, history: seq<Message>, v: Visit)
    requires Ordered(Shapes(history)) && IsPlain(v.message) && TidyTurn(c, history, v)
    ensures PairedThroughout(TurnEnd(c, history, v)) && Ordered(Shapes(AfterTurn(c, history, v)))
    ensures forall r | r in TurnEnd(c, history, v).trace.requests :: Ordered(Shapes(r.messages))
  {
    var turn := BuildTurn(c, history, v);
    TurnStartsPaired(c, history, v);
    BuiltTurn(c, history, v);
    EveryRequestIsPaired(c, turn, v.events);
    RunAnchored(c, turn, v.events);
    InOrderIsRobust(c.say);
    TidyRunAllows(c, turn, v.events);
    RunStored(c, InOrder(), turn, v.events);
    assert InOrder()(TurnEnd(c, history, v).chat.stored.history);
    HandedOnIsPaired(TurnEnd(c, history, v), v.text, v.closing);
  }

  /** The history of the turn and what is stored of it are both paired. */
  ghost predicate PairedThroughout(t: Turn) {
    Anchored(t) && Paired(t) && Ordered(Shapes(t.chat.stored.history))
  }

  /** Tool calls and their results stay paired over a whole session: in the history every turn
      leaves, and in every request of every turn. */
  lemma {:induction false} SessionStaysPaired(c: Config, visits: seq<Visit>, n: nat)
    requires n <= |visits| && WellBehaved(c, visits)
    ensures Ordered(Shapes(HistoryAfter(c, visits, n)))
    ensures n > 0 ==>
      forall r | r in TurnEnd(c, HistoryAfter(c, visits, n - 1), visits[n - 1]).trace.requests ::
          Ordered(Shapes(r.messages))
  {
    if n > 0 {
      SessionStaysPaired(c, visits, n - 1);
      assert WellBehavedAt(c, visits, n - 1);
      TurnKeepsPairs(c, HistoryAfter(c, visits, n - 1), visits[n - 1]);
    }
  }

  // ---- What is sent -----------------------------------------------------------------

  lemma {:induction false} TurnStartsSilent(c: Config, history: seq<Message>, v: Visit)
    requires AllSilent()(history) && IsPlain(v.message)
    ensures AllSilent()(BuildTurn(c, history, v).chat.messages) && AllSilent()(Base(c, history, v))
  {
    CheckpointIsSilent(c.budgets, history, v.checkpoint);
    BuiltTurn(c, history, v);
    assert ShapeOf(v.message).answers == ResIds(v.message);
  }

  lemma {:induction false} TurnStaysSilent(c: Config, history: seq<Message>, v: Visit)
    requires Ordered(Shapes(history)) && AllSilent()(history) && IsPlain(v.message) && TidyTurn(c, history, v)
    ensures AllSilent()(AfterTurn(c, history, v))
  {
    var turn := BuildTurn(c, history, v);
    TurnKeepsPairs(c, history, v);
    TurnStartsSilent(c, history, v);
    BuiltTurn(c, history, v);
    AllSilentIsRobust(c.say);
    AllSilentIsAllowed(c, turn, v.events);
    RunKeeps(c, AllSilent(), turn, v.events);
    RunStored(c, AllSilent(), turn, v.events);
    HandedOnIsSilent(TurnEnd(c, history, v), v.text, v.closing);
  }

  lemma {:induction false} SessionStaysSilent(c: Config, visits: seq<Visit>, n: nat)
    requires n <= |visits| && WellBehaved(c, visits)
    ensures AllSilent()(HistoryAfter(c, visits, n))
  {
    forall k: nat | k < n && AllSilent()(Fold(Turns(c), visits, k))
      ensures AllSilent()(Turns(c)(Fold(Turns(c), visits, k), visits[k]))
    {
      SessionStaysPaired(c, visits, k);
      assert WellBehavedAt(c, visits, k);
      TurnStaysSilent(c, HistoryAfter(c, visits, k), visits[k]);
    }
    AlongSession(Turns(c), visits, AllSilent(), n);
  }

  /** At every model call of a session, the history in the plan is paired exactly when no
      calling message of it, the current message aside, reads like an old retry instruction. */
  lemma {:induction false} SessionSendsPairsIff(c: Config, visits: seq<Visit>, n: nat, r: Request)
    requires n < |visits| && WellBehaved(c, visits)
    requires r in TurnEnd(c, HistoryAfter(c, visits, n), visits[n]).trace.requests
    ensures AnswersFrom(ShapeOf, [], SentHistory(KindOf, r.messages, r.current))
        <==> !LosesCalls(KindOf, ShapeOf, r.messages, r.current)
  {
    var history, v := HistoryAfter(c, visits, n), visits[n];
    SessionStaysPaired(c, visits, n);
    SessionStaysSilent(c, visits, n);
    assert WellBehavedAt(c, visits, n);
    TurnStartsPaired(c, history, v);
    TurnStartsSilent(c, history, v);
    SentAlongRunsIsPairedIff(c, BuildTurn(c, history, v), v.events, r);
  }

  // ---- New ids ----------------------------------------------------------------------

  /** Every call id of the session is new, and no stop makes a turn store a round twice. */
  ghost predicate FreshSession(c: Config, visits: seq<Visit>) {
    forall n: nat :: n < |visits| ==> FreshAt(c, visits, n)
  }

  ghost predicate FreshAt(c: Config, visits: seq<Visit>, n: nat)
    requires n < |visits|
  {
    var history, v := HistoryAfter(c, visits, n), visits[n];
    FreshTurn(c, history, v) && StopsProperly(TurnEnd(c, history, v), v.text)
  }

  ghost predicate FreshTurn(c: Config, history: seq<Message>, v: Visit) {
    IsPlain(v.message) && FreshRun(c, BuildTurn(c, history, v), v.events)
  }

  predicate StopsProperly(t: Turn, text: string) {
    t.control.status.Stopped? ==> RepeatsNoRound(t, text)
  }

  lemma {:induction false} FreshTurnStartsSound(c: Config, history: seq<Message>, v: Visit)
    requires Sound(Shapes(history)) && IsPlain(v.message)
    ensures Compact(c.budgets, history, v.checkpoint).Some? ==> CutCleanly(c.budgets, history)
    ensures Sound(Shapes(Base(c, history, v))) && Sound(Shapes(BuildTurn(c, history, v).chat.messages))
  {
    CheckpointSound(c.budgets, history, v.checkpoint);
    var base := Base(c, history, v);
    SoundPlain(Shapes(base), ShapeOf(v.message));
    assert Shapes(base + [v.message]) == Shapes(base) + [ShapeOf(v.message)];
    BuiltTurn(c, history, v);
  }

  lemma {:induction false} FreshTurnIsTidy(c: Config, history: seq<Message>, v: Visit)
    requires Sound(Shapes(history)) && FreshTurn(c, history, v)
    ensures TidyTurn(c, history, v) && Sound(Shapes(TurnEnd(c, history, v).chat.messages))
  {
    FreshTurnStartsSound(c, history, v);
    FreshRunsAreTidy(c, BuildTurn(c, history, v), v.events);
  }

  lemma {:induction false} FreshTurnStoresSound(c: Config, history: seq<Message>, v: Visit)
    requires Sound(Shapes(history)) && FreshTurn(c, history, v)
    ensures Anchored(TurnEnd(c, history, v)) && Sound(Shapes(TurnEnd(c, history, v).chat.stored.history))
  {
    var turn := BuildTurn(c, history, v);
    FreshTurnStartsSound(c, history, v);
    BuiltTurn(c, history, v);
    RunAnchored(c, turn, v.events);
    AllSoundIsRobust(c.say);
    FreshRunAllows(c, turn, v.events);
    RunStored(c, AllSound(), turn, v.events);
    assert AllSound()(TurnEnd(c, history, v).chat.stored.history);
  }

  /** A turn with new ids hands on a history with distinct ids exactly when a stop does not make
      it store a round twice. */
  lemma {:induction false} FreshTurnHandsOnSoundIff(c: Config, history: seq<Message>, v: Visit)
    requires Sound(Shapes(history)) && FreshTurn(c, history, v)
    ensures Sound(Shapes(AfterTurn(c, history, v))) <==> StopsProperly(TurnEnd(c, history, v), v.text)
  {
    FreshTurnIsTidy(c, history, v);
    FreshTurnStoresSound(c, history, v);
    if TurnEnd(c, history, v).control.status.Stopped? {
      StoppedIdsAreDistinctIff(TurnEnd(c, history, v), v.text, v.closing);
    } else {
      OtherEndsAreDistinct(TurnEnd(c, history, v), v.text, v.closing);
    }
  }

  lemma {:induction false} FreshSessionStaysSound(c: Config, visits: seq<Visit>, n: nat)
    requires n <= |visits| && FreshSession(c, visits)
    ensures Sound(Shapes(HistoryAfter(c, visits, n)))
  {
    forall k: nat | k < n && AllSound()(Fold(Turns(c), visits, k))
      ensures AllSound()(Turns(c)(Fold(Turns(c), visits, k), visits[k]))
    {
      assert FreshAt(c, visits, k);
      FreshTurnHandsOnSoundIff(c, HistoryAfter(c, visits, k), visits[k]);
    }
    AlongSession(Turns(c), visits, AllSound(), n);
    assert AllSound()(HistoryAfter(c, visits, n));
  }

  /** A session with new ids throughout, in which no stop stores a round twice, meets the
      condition by itself. */
  lemma {:induction false} FreshSessionsAreWellBehaved(c: Config, visits: seq<Visit>)
    requires FreshSession(c, visits)
    ensures WellBehaved(c, visits)
  {
    forall n: nat | n < |visits|
      ensures WellBehavedAt(c, visits, n)
    {
      FreshSessionStaysSound(c, visits, n);
      assert FreshAt(c, visits, n);
      FreshTurnIsTidy(c, HistoryAfter(c, visits, n), visits[n]);
    }
  }
}
