/** What a turn keeps of its history at every point: tool rounds stay paired. */
module TurnSafety {
  import opened Options
  import opened Messages
  import opened Compaction
  import opened ToolCalls
  import opened TurnLoop
  import TurnBounds
  import opened History

  // ---- Shapes of what the loop appends ----------------------------------------------

  lemma {:induction false} NoteIsPlain(role: Role, text: string)
    ensures ShapeOf(Note(role, text)) == Shape(role.Assistant?, [], [])
  {
    TextHasNoTools(Text(text));
  }

  lemma {:induction false} BlocksOfCalls(calls: seq<Call>, results: string -> ToolOutcome)
    ensures UsesOf(UseBlocks(calls)) == CallIds(calls) && ResultsOf(UseBlocks(calls)) == []
    ensures ResultsOf(ResultBlocks(calls, results)) == CallIds(calls) && UsesOf(ResultBlocks(calls, results)) == []
  {
    if calls != [] {
      BlocksOfCalls(calls[1..], results);
      assert CallIds(calls) == [calls[0].id] + CallIds(calls[1..]);
    }
  }

  /** A tool round is one message with the calls and one with their results, in order. */
  lemma {:induction false} RoundShapes(text: string, calls: seq<Call>, results: string -> ToolOutcome)
    ensures Shapes(Round(text, calls, results)) == [Shape(true, CallIds(calls), []), Shape(false, [], CallIds(calls))]
  {
    BlocksOfCalls(calls, results);
    var head := if text != "" then [Text(text)] else [];
    UsesConcat(head, UseBlocks(calls));
    ResultsConcat(head, UseBlocks(calls));
    if text != "" {
      TextHasNoTools(Text(text));
    }
    assert UsesOf(head) == [] && ResultsOf(head) == [];
    assert [] + CallIds(calls) == CallIds(calls);
  }

  lemma {:induction false} ShapesOfTwoMore(ms: seq<Message>, two: seq<Message>, s: Shape, t: Shape)
    requires Shapes(two) == [s, t]
    ensures Shapes(ms + two) == Shapes(ms) + [s] + [t]
  {
    var all := Shapes(ms + two);
    assert |two| == 2 && ShapeOf(two[0]) == s && ShapeOf(two[1]) == t;
    assert all[|ms|] == s && all[|ms| + 1] == t;
    assert all[..|ms|] == Shapes(ms);
  }

  lemma {:induction false} ShapesWithNote(ms: seq<Message>, role: Role, text: string)
    ensures Shapes(ms + [Note(role, text)]) == Shapes(ms) + [Shape(role.Assistant?, [], [])]
  {
    NoteIsPlain(role, text);
    assert Shapes(ms + [Note(role, text)]) == Shapes(ms) + [ShapeOf(Note(role, text))];
  }

  lemma {:induction false} ShapesWithRound(ms: seq<Message>, text: string, calls: seq<Call>,
        results: string -> ToolOutcome)
    ensures Shapes(ms + Round(text, calls, results))
        == Shapes(ms) + [Shape(true, CallIds(calls), [])] + [Shape(false, [], CallIds(calls))]
  {
    RoundShapes(text, calls, results);
    ShapesOfTwoMore(ms, Round(text, calls, results), Shape(true, CallIds(calls), []), Shape(false, [], CallIds(calls)));
  }

  lemma {:induction false} ImagesHaveNoTools(blocks: seq<Block>)
    ensures UsesOf(WithoutImages(blocks)) == UsesOf(blocks)
    ensures ResultsOf(WithoutImages(blocks)) == ResultsOf(blocks)
  {
    if blocks != [] {
      var rest := blocks[1..];
      ImagesHaveNoTools(rest);
      if blocks[0].Image? {
        assert WithoutImages(blocks) == WithoutImages(rest);
        assert UsesOf(blocks) == UsesOf(rest) && ResultsOf(blocks) == ResultsOf(rest);
      } else {
        var kept := WithoutImages(blocks);
        assert kept[0] == blocks[0] && kept[1..] == WithoutImages(rest);
      }
    }
  }

  /** No image is left, nothing else goes, and without images nothing changes. */
  lemma {:induction false} WithoutImagesIsExact(blocks: seq<Block>)
    ensures forall b | b in WithoutImages(blocks) :: !b.Image?
    ensures forall b | b in blocks && !b.Image? :: b in WithoutImages(blocks)
    ensures |WithoutImages(blocks)| <= |blocks|
    ensures (forall b | b in blocks :: !b.Image?) ==> WithoutImages(blocks) == blocks
  {
    if blocks != [] {
      WithoutImagesIsExact(blocks[1..]);
      assert forall b | b in blocks :: b == blocks[0] || b in blocks[1..];
      assert blocks == [blocks[0]] + blocks[1..];
    }
  }

  lemma {:induction false} StripTwice(w: Wording, m: Message)
    ensures StripImages(w, StripImages(w, m)) == StripImages(w, m)
  {
    if m.content.Blocks? {
      var kept := WithoutImages(m.content.blocks);
      WithoutImagesIsExact(m.content.blocks);
      WithoutImagesIsExact(kept);
      WithoutImagesIsExact([Text(w.imageRemoved)]);
    }
  }

  /** Stripping is done after once: a second image error finds nothing to strip. */
  lemma {:induction false} StrippingIsIdempotent(w: Wording, ms: seq<Message>)
    ensures StripAllImages(w, StripAllImages(w, ms)) == StripAllImages(w, ms)
  {
    forall i | 0 <= i < |ms|
      ensures StripAllImages(w, StripAllImages(w, ms))[i] == StripAllImages(w, ms)[i]
    {
      StripTwice(w, ms[i]);
    }
  }

  lemma {:induction false} StripKeepsShape(w: Wording, m: Message)
    ensures ShapeOf(StripImages(w, m)) == ShapeOf(m)
  {
    if m.content.Blocks? {
      ImagesHaveNoTools(m.content.blocks);
      TextHasNoTools(Text(w.imageRemoved));
    }
  }

  lemma {:induction false} StripAllKeepsShapes(w: Wording, ms: seq<Message>)
    ensures Shapes(StripAllImages(w, ms)) == Shapes(ms)
  {
    forall i | 0 <= i < |ms|
      ensures Shapes(StripAllImages(w, ms))[i] == Shapes(ms)[i]
    {
      StripKeepsShape(w, ms[i]);
    }
  }

  // ---- What a turn keeps of its history ---------------------------------------------

  /** A property of histories that neither notes nor stripping images can break. */
  ghost predicate Robust(w: Wording, p: seq<Message> -> bool) {
    && (forall ms, role, text {:trigger p(ms + [Note(role, text)])} :: p(ms) ==> p(ms + [Note(role, text)]))
    && (forall ms {:trigger p(StripAllImages(w, ms))} :: p(ms) ==> p(StripAllImages(w, ms)))
  }

  /** The pass replaces the history after an overflow. */
  predicate CompactsOnOverflow(c: Config, s: Turn, e: Event) {
    && !CompactsFirst(c, s, e) && e.outcome.Failed? && e.outcome.error.overflow && !s.control.overflowRetried
    && Compact(c.budgets, s.chat.messages, e.outcome.error.checkpoint).Some?
  }

  /** What else a pass may do to the history keeps the property: a checkpoint it takes, and a
      tool round it runs. */
  ghost predicate PassAllows(c: Config, p: seq<Message> -> bool, s: Turn, e: Event) {
    e.interrupted ||
    (var t := TakeSteer(s, e.steer);
     && (CompactsFirst(c, t, e) ==> p(Compact(c.budgets, t.chat.messages, e.midTurn).value))
     && (CompactsOnOverflow(c, t, e) ==> p(Compact(c.budgets, t.chat.messages, e.outcome.error.checkpoint).value))
     && (!CompactsFirst(c, t, e) && e.outcome.Replied? ==>
           p(t.chat.messages
               + Round(e.outcome.reply.text, Deduplicate(e.outcome.reply.calls), e.outcome.reply.results))))
  }

  ghost predicate RunAllows(c: Config, p: seq<Message> -> bool, s: Turn, events: seq<Event>)
    decreases |events|
  {
    events == [] || !Live(s) || (PassAllows(c, p, s, events[0]) && RunAllows(c, p, Pass(c, s, events[0]), events[1..]))
  }

  ghost predicate Has(p: seq<Message> -> bool, s: Turn) {
    p(s.chat.messages)
  }

  lemma {:induction false} NoteKeeps(w: Wording, p: seq<Message> -> bool, s: Turn, text: string)
    requires Robust(w, p) && Has(p, s)
    ensures Has(p, Say(s, text)) && Has(p, Hear(s, text))
  {
    assert p(s.chat.messages + [Note(Assistant, text)]) && p(s.chat.messages + [Note(User, text)]);
  }

  lemma {:induction false} AfterToolsKeeps(w: Wording, p: seq<Message> -> bool, s: Turn, verdict: Verdict)
    requires Robust(w, p) && Has(p, s)
    ensures Has(p, AfterTools(w, s, verdict))
  {
    NoteKeeps(w, p, s, w.permissionNotice);
    NoteKeeps(w, p, s, w.limitNotice);
  }

  lemma {:induction false} AnswerKeeps(w: Wording, p: seq<Message> -> bool, s: Turn, reply: Reply)
    requires Robust(w, p) && Has(p, s)
    ensures Has(p, OnAnswer(w, s, reply))
  {
    NoteKeeps(w, p, s, reply.text);
    if reply.steer.Some? {
      NoteKeeps(w, p, Say(s, reply.text), reply.steer.value);
    }
  }

  lemma {:induction false} CallsKeep(w: Wording, p: seq<Message> -> bool, s: Turn, calls: seq<Call>, reply: Reply)
    requires Robust(w, p) && Has(p, s) && p(s.chat.messages + Round(reply.text, calls, reply.results))
    ensures Has(p, OnCalls(w, s, calls, reply))
  {
    assert Has(p, Execute(s, calls, reply));
    AfterToolsKeeps(w, p, Execute(s, calls, reply), VerdictOn(calls, reply.results));
  }

  lemma {:induction false} ReplyKeeps(w: Wording, p: seq<Message> -> bool, s: Turn, reply: Reply)
    requires Robust(w, p) && Has(p, s)
    requires p(s.chat.messages + Round(reply.text, Deduplicate(reply.calls), reply.results))
    ensures Has(p, OnReply(w, s, reply))
  {
    var t, calls := s.(transient := ""), Deduplicate(reply.calls);
    if s.closing.due {
      NoteKeeps(w, p, s, if reply.text != "" then Strip(reply.text) else s.closing.fallback);
    } else if reply.text == "" && calls == [] {
      NoteKeeps(w, p, s, w.emptyFallback);
    } else if calls == [] {
      AnswerKeeps(w, p, t, reply);
    } else {
      CallsKeep(w, p, t, calls, reply);
    }
  }

  lemma {:induction false} FailureKeeps(c: Config, p: seq<Message> -> bool, s: Turn, e: Error)
    requires Robust(c.say, p) && Has(p, s)
    requires var made := Compact(c.budgets, s.chat.messages, e.checkpoint);
      e.overflow && !s.control.overflowRetried && made.Some? ==> p(made.value)
    ensures Has(p, OnFailure(c, s, e))
  {
    NoteKeeps(c.say, p, s, s.closing.fallback);
    assert p(StripAllImages(c.say, s.chat.messages));
    assert p(StripAllImages(c.say, s.chat.messages) + [Note(User, c.say.imageNotice)]);
  }

  lemma {:induction false} PassKeeps(c: Config, p: seq<Message> -> bool, s: Turn, e: Event)
    requires Live(s) && Robust(c.say, p) && Has(p, s) && PassAllows(c, p, s, e)
    ensures Has(p, TakeSteer(s, e.steer)) && Has(p, Pass(c, s, e))
    ensures var past, now := s.trace.requests, Pass(c, s, e).trace.requests;
      now == past || (|now| == |past| + 1 && now[..|past|] == past && p(now[|past|].messages))
  {
    if e.steer.Some? {
      NoteKeeps(c.say, p, s, e.steer.value);
    }
    if !e.interrupted {
      var t := TakeSteer(s, e.steer);
      if !CompactsFirst(c, t, e) {
        TurnBounds.OutcomePays(c, Ask(t), e.outcome);
        match e.outcome
        case Cancelled =>
        case Failed(error) => FailureKeeps(c, p, Ask(t), error);
        case Replied(reply) => ReplyKeeps(c.say, p, Ask(t), reply);
      }
    }
  }

  lemma {:induction false} OneMore<T>(past: seq<T>, now: seq<T>)
    requires |now| == |past| + 1 && now[..|past|] == past
    ensures forall r | r in now :: r in past || r == now[|past|]
  {
    assert now == past + [now[|past|]];
  }

  /** Such a property holds of every history the run sends and of the one it leaves. */
  lemma {:induction false} RunKeeps(c: Config, p: seq<Message> -> bool, s: Turn, events: seq<Event>)
    requires Robust(c.say, p) && Has(p, s) && RunAllows(c, p, s, events)
    requires forall r | r in s.trace.requests :: p(r.messages)
    ensures Has(p, Run(c, s, events))
    ensures forall r | r in Run(c, s, events).trace.requests :: p(r.messages)
    decreases |events|
  {
    if events != [] && Live(s) {
      var t := Pass(c, s, events[0]);
      PassKeeps(c, p, s, events[0]);
      if t.trace.requests != s.trace.requests {
        OneMore(s.trace.requests, t.trace.requests);
      }
      RunKeeps(c, p, t, events[1..]);
    }
  }

  // ---- Tool rounds stay paired ------------------------------------------------------

  ghost function InOrder(): seq<Message> -> bool {
    ms => Ordered(Shapes(ms))
  }

  ghost predicate Paired(s: Turn) {
    Ordered(Shapes(s.chat.messages))
  }

  /** A checkpoint taken in this pass cuts cleanly. */
  ghost predicate TidyPass(c: Config, s: Turn, e: Event) {
    var t := TakeSteer(s, e.steer);
    !e.interrupted && (CompactsFirst(c, t, e) || CompactsOnOverflow(c, t, e)) ==> CutCleanly(c.budgets, t.chat.messages)
  }

  ghost predicate TidyRun(c: Config, s: Turn, events: seq<Event>)
    decreases |events|
  {
    events == [] || !Live(s) || (TidyPass(c, s, events[0]) && TidyRun(c, Pass(c, s, events[0]), events[1..]))
  }

  lemma {:induction false} InOrderIsRobust(w: Wording)
    ensures Robust(w, InOrder())
  {
    forall ms, role, text | InOrder()(ms)
      ensures InOrder()(ms + [Note(role, text)])
    {
      ShapesWithNote(ms, role, text);
      OrderedPlain(Shapes(ms), Shape(role.Assistant?, [], []));
    }
    forall ms | InOrder()(ms)
      ensures InOrder()(StripAllImages(w, ms))
    {
      StripAllKeepsShapes(w, ms);
    }
  }

  lemma {:induction false} SteerStaysPaired(w: Wording, s: Turn, steer: Option<string>)
    requires Paired(s)
    ensures Paired(TakeSteer(s, steer))
  {
    InOrderIsRobust(w);
    if steer.Some? {
      assert InOrder()(s.chat.messages);
      NoteKeeps(w, InOrder(), s, steer.value);
    }
  }

  lemma {:induction false} RoundInOrder(ms: seq<Message>, reply: Reply)
    requires Ordered(Shapes(ms))
    ensures Ordered(Shapes(ms + Round(reply.text, Deduplicate(reply.calls), reply.results)))
  {
    var calls := Deduplicate(reply.calls);
    DeduplicatedIds(reply.calls);
    ShapesWithRound(ms, reply.text, calls, reply.results);
    OrderedRound(Shapes(ms), CallIds(calls));
  }

  lemma {:induction false} CheckpointInOrder(b: Budgets, ms: seq<Message>, made: Option<Checkpoint>)
    requires Ordered(Shapes(ms)) && CutCleanly(b, ms)
    ensures Compact(b, ms, made).Some? ==> Ordered(Shapes(Compact(b, ms, made).value))
  {
    if Compact(b, ms, made).Some? {
      CheckpointIsOrdered(b, ms, made.value.order, made.value.summary);
    }
  }

  lemma {:induction false} TidyPassAllows(c: Config, s: Turn, e: Event)
    requires Paired(s) && TidyPass(c, s, e)
    ensures PassAllows(c, InOrder(), s, e)
  {
    InOrderIsRobust(c.say);
    if e.steer.Some? {
      NoteKeeps(c.say, InOrder(), s, e.steer.value);
    }
    var ms := TakeSteer(s, e.steer).chat.messages;
    assert InOrder()(ms);
    if CutCleanly(c.budgets, ms) {
      CheckpointInOrder(c.budgets, ms, e.midTurn);
      if e.outcome.Failed? {
        CheckpointInOrder(c.budgets, ms, e.outcome.error.checkpoint);
      }
    }
    if e.outcome.Replied? {
      RoundInOrder(ms, e.outcome.reply);
    }
  }

  lemma {:induction false} TidyRunAllows(c: Config, s: Turn, events: seq<Event>)
    requires Paired(s) && TidyRun(c, s, events)
    ensures RunAllows(c, InOrder(), s, events)
    decreases |events|
  {
    if events != [] && Live(s) {
      TidyPassAllows(c, s, events[0]);
      InOrderIsRobust(c.say);
      PassKeeps(c, InOrder(), s, events[0]);
      TidyRunAllows(c, Pass(c, s, events[0]), events[1..]);
    }
  }

  /** At every model call of every run the history has each tool call answered, in order, by
      the next message, and no answer without its call; so has the history the run leaves
      behind. Ids may repeat: only a checkpoint that cuts a round whose ids its tail repeats
      could break this. */
  lemma {:induction false} EveryRequestIsPaired(c: Config, s: Turn, events: seq<Event>)
    requires Paired(s) && TidyRun(c, s, events)
    requires forall r | r in s.trace.requests :: Ordered(Shapes(r.messages))
    ensures Paired(Run(c, s, events))
    ensures forall r | r in Run(c, s, events).trace.requests :: Ordered(Shapes(r.messages))
  {
    InOrderIsRobust(c.say);
    TidyRunAllows(c, s, events);
    RunKeeps(c, InOrder(), s, events);
    assert InOrder()(Run(c, s, events).chat.messages);
    assert forall r | r in Run(c, s, events).trace.requests :: InOrder()(r.messages);
  }

  /** Nothing is required of a run in which no checkpoint is made. */
  lemma {:induction false} UncompactedRunsAreTidy(c: Config, s: Turn, events: seq<Event>)
    requires forall e | e in events :: e.midTurn.None? && (e.outcome.Failed? ==> e.outcome.error.checkpoint.None?)
    ensures TidyRun(c, s, events)
    decreases |events|
  {
    if events != [] && Live(s) {
      assert events[0] in events && forall e | e in events[1..] :: e in events;
      UncompactedRunsAreTidy(c, Pass(c, s, events[0]), events[1..]);
    }
  }

  // ---- New ids ----------------------------------------------------------------------

  ghost function AllSound(): seq<Message> -> bool {
    ms => Sound(Shapes(ms))
  }

  /** The ids of the reply's calls do not occur in the history they will join. */
  ghost predicate FreshIds(s: Turn, reply: Reply) {
    forall x | x in CallIds(Deduplicate(reply.calls)) :: x !in UsedIds(Shapes(s.chat.messages))
  }

  /** Replies along a run only use new ids. */
  ghost predicate FreshRun(c: Config, s: Turn, events: seq<Event>)
    decreases |events|
  {
    events == [] || !Live(s) ||
    (var e := events[0];
     && (e.outcome.Replied? ==> FreshIds(s, e.outcome.reply))
     && FreshRun(c, Pass(c, s, e), events[1..]))
  }

  lemma {:induction false} PlainUsesNothing(ss: seq<Shape>, s: Shape)
    requires s.uses == []
    ensures UsedIds(ss + [s]) == UsedIds(ss)
  {
    var next := ss + [s];
    forall x
      ensures x in UsedIds(next) <==> x in UsedIds(ss)
    {
      if i :| 0 <= i < |ss| && x in ss[i].uses {
        assert x in next[i].uses;
      }
    }
  }

  lemma {:induction false} AllSoundIsRobust(w: Wording)
    ensures Robust(w, AllSound())
  {
    forall ms, role, text | AllSound()(ms)
      ensures AllSound()(ms + [Note(role, text)])
    {
      ShapesWithNote(ms, role, text);
      SoundPlain(Shapes(ms), Shape(role.Assistant?, [], []));
    }
    forall ms | AllSound()(ms)
      ensures AllSound()(StripAllImages(w, ms))
    {
      StripAllKeepsShapes(w, ms);
    }
  }

  lemma {:induction false} SteerUsesNothing(s: Turn, steer: Option<string>)
    ensures UsedIds(Shapes(TakeSteer(s, steer).chat.messages)) == UsedIds(Shapes(s.chat.messages))
  {
    if steer.Some? {
      ShapesWithNote(s.chat.messages, User, steer.value);
      PlainUsesNothing(Shapes(s.chat.messages), Shape(false, [], []));
    }
  }

  lemma {:induction false} CheckpointSound(b: Budgets, ms: seq<Message>, made: Option<Checkpoint>)
    requires Sound(Shapes(ms))
    ensures Compact(b, ms, made).Some? ==> CutCleanly(b, ms) && Sound(Shapes(Compact(b, ms, made).value))
  {
    if Compact(b, ms, made).Some? {
      CheckpointKeepsRounds(b, ms, made.value.order);
      CheckpointIsSound(b, ms, made.value.order, made.value.summary);
    }
  }

  lemma {:induction false} FreshPassAllows(c: Config, s: Turn, e: Event)
    requires Sound(Shapes(s.chat.messages)) && (e.outcome.Replied? ==> FreshIds(s, e.outcome.reply))
    ensures PassAllows(c, AllSound(), s, e) && TidyPass(c, s, e)
  {
    AllSoundIsRobust(c.say);
    if e.steer.Some? {
      NoteKeeps(c.say, AllSound(), s, e.steer.value);
    }
    var ms := TakeSteer(s, e.steer).chat.messages;
    assert AllSound()(ms);
    CheckpointSound(c.budgets, ms, e.midTurn);
    match e.outcome
    case Cancelled =>
    case Failed(error) => CheckpointSound(c.budgets, ms, error.checkpoint);
    case Replied(reply) =>
      SteerUsesNothing(s, e.steer);
      DeduplicatedIds(reply.calls);
      ShapesWithRound(ms, reply.text, Deduplicate(reply.calls), reply.results);
      SoundRound(Shapes(ms), CallIds(Deduplicate(reply.calls)));
  }

  lemma {:induction false} FreshPassStaysSound(c: Config, s: Turn, e: Event)
    requires Live(s) && Sound(Shapes(s.chat.messages)) && (e.outcome.Replied? ==> FreshIds(s, e.outcome.reply))
    ensures Sound(Shapes(Pass(c, s, e).chat.messages))
  {
    FreshPassAllows(c, s, e);
    AllSoundIsRobust(c.say);
    PassKeeps(c, AllSound(), s, e);
    assert AllSound()(Pass(c, s, e).chat.messages);
  }

  lemma {:induction false} FreshRunAllows(c: Config, s: Turn, events: seq<Event>)
    requires Sound(Shapes(s.chat.messages)) && FreshRun(c, s, events)
    ensures RunAllows(c, AllSound(), s, events)
    decreases |events|
  {
    if events != [] && Live(s) {
      FreshPassAllows(c, s, events[0]);
      FreshPassStaysSound(c, s, events[0]);
      FreshRunAllows(c, Pass(c, s, events[0]), events[1..]);
    }
  }

  /** New ids in every reply are enough: then all checkpoints cut cleanly, and no id is ever
      used by two rounds. */
  lemma {:induction false} FreshRunsAreTidy(c: Config, s: Turn, events: seq<Event>)
    requires Sound(Shapes(s.chat.messages)) && FreshRun(c, s, events)
    ensures TidyRun(c, s, events) && Sound(Shapes(Run(c, s, events).chat.messages))
    decreases |events|
  {
    if events != [] && Live(s) {
      FreshPassAllows(c, s, events[0]);
      FreshPassStaysSound(c, s, events[0]);
      FreshRunsAreTidy(c, Pass(c, s, events[0]), events[1..]);
    }
  }
}
