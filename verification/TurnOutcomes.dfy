/** What one pass makes of a turn: what it sends, what joins the history, and how the turn goes
    on, for everything the model, the tools and the user can do. */
module TurnOutcomes {
  import opened Options
  import opened Messages
  import opened Compaction
  import opened ToolCalls
  import opened TurnLoop
  import TurnBounds
  import TurnClosing
  import TurnRounds

  function Words(role: Role, text: Option<string>): seq<Message> {
    if text.Some? then [Message(role, Blocks([Text(text.value)]))] else []
  }

  /** The history once the user's steering has joined it. */
  function Steered(s: Turn, e: Event): seq<Message> {
    s.chat.messages + Words(User, e.steer)
  }

  lemma {:induction false} SteeringJoins(s: Turn, e: Event)
    ensures TakeSteer(s, e.steer)
        == s.(chat := s.chat.(messages := Steered(s, e)), trace := TakeSteer(s, e.steer).trace)
    ensures TakeSteer(s, e.steer).trace.requests == s.trace.requests
  {
    if e.steer.None? {
      assert s.chat.messages + [] == s.chat.messages;
    }
  }

  // ---- Whether the model is asked ---------------------------------------------------

  /** The history is due for a checkpoint, and there is one. */
  predicate TakesCheckpoint(c: Config, s: Turn, e: Event) {
    && e.overThreshold && |Steered(s, e)| != s.chat.lastCompacted
    && HasCheckpoint(c.budgets, Steered(s, e), e.midTurn)
  }

  predicate HasCheckpoint(b: Budgets, ms: seq<Message>, made: Option<Checkpoint>) {
    made.Some? && |ms| > 1 && VisitsTail(b, ms, made.value.order)
  }

  predicate Asks(c: Config, s: Turn, e: Event) {
    Live(s) && !e.interrupted && !TakesCheckpoint(c, s, e)
  }

  /** The history is a checkpoint of another one, and so is what is stored of the turn. */
  ghost predicate IsCheckpointOf(b: Budgets, ms: seq<Message>, made: Checkpoint, t: Turn)
    requires VisitsTail(b, ms, made.order)
  {
    && t.chat.messages == Replacement(b, ms, made.order, made.summary)
    && t.chat.userIndex == t.chat.lastCompacted == |t.chat.messages|
    && t.chat.stored == Stored(t.chat.messages, true)
  }

  /** An interrupted pass only stops the turn. A pass that takes a checkpoint replaces the history
      by it and asks nothing; every other pass sends the history as it stands, with the message
      it treats as current, and tools exactly when the turn is not closing. */
  lemma {:induction false} PassSends(c: Config, s: Turn, e: Event)
    requires Live(s)
    ensures e.interrupted ==> Pass(c, s, e) == s.(control := s.control.(status := Stopped))
    ensures !e.interrupted && TakesCheckpoint(c, s, e) ==>
      && IsCheckpointOf(c.budgets, Steered(s, e), e.midTurn.value, Pass(c, s, e))
      && Pass(c, s, e).trace.requests == s.trace.requests && Pass(c, s, e).control == s.control
    ensures Asks(c, s, e) ==>
      Pass(c, s, e).trace.requests == s.trace.requests
        + [Request(Steered(s, e), s.chat.userIndex, !s.closing.due,
                   if s.closing.due then s.closing.instruction else "", s.transient, s.chat.skill)]
  {
    SteeringJoins(s, e);
    if !e.interrupted {
      var t := TakeSteer(s, e.steer);
      assert CompactsFirst(c, t, e) <==> TakesCheckpoint(c, s, e);
      if !TakesCheckpoint(c, s, e) {
        TurnBounds.OutcomePays(c, Ask(t), e.outcome);
      }
    }
  }

  // ---- Replies ----------------------------------------------------------------------

  predicate Hears(c: Config, s: Turn, e: Event) {
    Asks(c, s, e) && e.outcome.Replied?
  }

  /** A stop hook asks for a continuation, and no earlier one has in this turn. */
  predicate HookContinues(s: Turn, reply: Reply) {
    !s.control.stopHookActive && reply.hook.Some?
  }

  /** The model answers in words and asks for no tools. */
  predicate Answers(c: Config, s: Turn, e: Event) {
    && Hears(c, s, e) && !s.closing.due
    && e.outcome.reply.text != "" && Deduplicate(e.outcome.reply.calls) == []
  }

  lemma {:induction false} PassIsReply(c: Config, s: Turn, e: Event)
    requires Hears(c, s, e)
    ensures Live(Ask(TakeSteer(s, e.steer)))
    ensures Pass(c, s, e) == OnReply(c.say, Ask(TakeSteer(s, e.steer)), e.outcome.reply)
    ensures Ask(TakeSteer(s, e.steer)).chat == s.chat.(messages := Steered(s, e), skill := None)
    ensures Ask(TakeSteer(s, e.steer)).control == s.control && Ask(TakeSteer(s, e.steer)).closing == s.closing
    ensures Ask(TakeSteer(s, e.steer)).successes == s.successes
  {
    SteeringJoins(s, e);
  }

  /** A text without calls is recorded as the answer, followed by what the user says to it. It
      completes the turn exactly when the user says nothing and no hook continues the turn. */
  lemma {:induction false} AnswerIsRecorded(c: Config, s: Turn, e: Event)
    requires Answers(c, s, e)
    ensures var reply, t := e.outcome.reply, Pass(c, s, e);
      && t.chat.messages == Steered(s, e) + Words(Assistant, Some(reply.text)) + Words(User, reply.steer)
      && (t.control.status.Completed? <==> reply.steer.None? && !HookContinues(s, reply))
      && (!t.control.status.Completed? ==> Live(t) && t.control.budget == s.control.budget)
      && (reply.steer.None? && HookContinues(s, reply) ==>
           t.control.stopHookActive && t.chat.contexts == s.chat.contexts + [c.say.hookHeader + reply.hook.value])
  {
    PassIsReply(c, s, e);
    var reply := e.outcome.reply;
    assert !AnyCall([], Invalid);
    AnswerChat(c.say, Ask(TakeSteer(s, e.steer)).(transient := ""), reply);
  }

  lemma {:induction false} AnswerChat(w: Wording, s: Turn, reply: Reply)
    requires Live(s)
    ensures var t := OnAnswer(w, s, reply);
      && t.chat.messages == s.chat.messages + Words(Assistant, Some(reply.text)) + Words(User, reply.steer)
      && (t.control.status.Completed? <==> reply.steer.None? && !HookContinues(s, reply))
      && (!t.control.status.Completed? ==> Live(t) && t.control.budget == s.control.budget)
      && (reply.steer.None? && HookContinues(s, reply) ==>
           t.control.stopHookActive && t.chat.contexts == s.chat.contexts + [w.hookHeader + reply.hook.value])
  {
    var said := s.chat.messages + Words(Assistant, Some(reply.text));
    assert said + [] == said;
  }

  /** An empty reply adds nothing to the history while something is left to try: right after a
      tool round the closing request, once, and otherwise the same request with a nudge, twice.
      Then the turn ends with a fixed answer. */
  lemma {:induction false} EmptyReplyIsRetried(c: Config, s: Turn, e: Event)
    requires Hears(c, s, e) && !s.closing.due
    requires e.outcome.reply.text == "" && Deduplicate(e.outcome.reply.calls) == []
    ensures var t, w := Pass(c, s, e), c.say;
      var closes := s.control.justExecutedTools && !s.control.retry.postToolEmpty;
      var nudges := !closes && s.control.retry.emptyContent < 2;
      && t.chat.messages == Steered(s, e) + Words(Assistant, if closes || nudges then None else Some(w.emptyFallback))
      && (t.control.status.Completed? <==> !closes && !nudges) && (closes || nudges ==> Live(t))
      && t.closing == (if closes then Closing(true, w.toolResultPrompt, w.toolResultFallback) else s.closing)
      && t.transient == (if nudges then w.emptyReply else s.transient)
      && t.control.retry.emptyContent == s.control.retry.emptyContent + (if nudges then 1 else 0)
      && t.control.retry.postToolEmpty == (closes || s.control.retry.postToolEmpty)
  {
    PassIsReply(c, s, e);
    SteeringJoins(s, e);
    assert Steered(s, e) + [] == Steered(s, e);
  }

  /** A closing turn ends with the reply's text, or with its fallback when that is empty, and runs
      none of the calls the reply asks for. */
  lemma {:induction false} ClosingReplyIsRecorded(c: Config, s: Turn, e: Event)
    requires Hears(c, s, e) && s.closing.due
    ensures var reply, t := e.outcome.reply, Pass(c, s, e);
      && t.chat.messages == Steered(s, e)
           + Words(Assistant, Some(if reply.text == "" then s.closing.fallback else Strip(reply.text)))
      && t.control.status.Completed? && t.trace.executions == s.trace.executions
  {
    PassIsReply(c, s, e);
    TurnClosing.FirstReplyCloses(c.say, Ask(TakeSteer(s, e.steer)), e.outcome.reply);
  }

  predicate HasInvalidCall(calls: seq<Call>) {
    exists i :: 0 <= i < |calls| && calls[i].input == "" && calls[i].name != ""
  }

  /** Calls without arguments are asked for again, twice, and none of the batch runs. */
  lemma {:induction false} InvalidCallsAreRetried(c: Config, s: Turn, e: Event)
    requires Hears(c, s, e) && !s.closing.due
    requires HasInvalidCall(Deduplicate(e.outcome.reply.calls)) && s.control.retry.invalidTool < 2
    ensures var t := Pass(c, s, e);
      && t.chat.messages == Steered(s, e) && Live(t) && !t.closing.due
      && t.transient == c.say.invalidTool && t.control.retry.invalidTool == s.control.retry.invalidTool + 1
      && t.trace.executions == s.trace.executions && t.successes == s.successes
  {
    PassIsReply(c, s, e);
    SteeringJoins(s, e);
    AnyCallIff(Deduplicate(e.outcome.reply.calls), Invalid);
  }

  // ---- Tool rounds ------------------------------------------------------------------

  function UsesFor(calls: seq<Call>): seq<Block> {
    seq(|calls|, i requires 0 <= i < |calls| => ToolUse(calls[i].id, calls[i].name, calls[i].input))
  }

  function ResultsFor(calls: seq<Call>, results: string -> ToolOutcome): seq<Block> {
    seq(|calls|, i requires 0 <= i < |calls| => ToolResult(calls[i].id, results(calls[i].id).content))
  }

  lemma {:induction false} BlocksCarry(calls: seq<Call>, results: string -> ToolOutcome)
    ensures UseBlocks(calls) == UsesFor(calls) && ResultBlocks(calls, results) == ResultsFor(calls, results)
  {
    if calls != [] {
      BlocksCarry(calls[1..], results);
    }
  }

  /** A round is the reply's text and, call by call, the block with its id, name and input; then,
      in the same order, each call's result with what the tool returned. */
  lemma {:induction false} RoundCarries(text: string, calls: seq<Call>, results: string -> ToolOutcome)
    ensures Round(text, calls, results) ==
      [Message(Assistant, Blocks((if text == "" then [] else [Text(text)]) + UsesFor(calls))),
       Message(User, Blocks(ResultsFor(calls, results)))]
  {
    BlocksCarry(calls, results);
  }

  /** The reply has calls to run, and none of them is asked for again. */
  predicate BringsCalls(s: Turn, reply: Reply) {
    var calls := Deduplicate(reply.calls);
    calls != [] && !(HasInvalidCall(calls) && s.control.retry.invalidTool < 2)
  }

  /** Some call has succeeded as often as it may. */
  predicate AnyExhausted(successes: map<Signature, nat>, calls: seq<Call>) {
    exists i :: 0 <= i < |calls|
      && (calls[i].name, calls[i].input) in successes && successes[(calls[i].name, calls[i].input)] >= 3
  }

  /** When a call has succeeded three times before, none of the batch runs and the closing request
      is due. */
  lemma {:induction false} ExhaustedCallsClose(c: Config, s: Turn, e: Event)
    requires Hears(c, s, e) && !s.closing.due && BringsCalls(s, e.outcome.reply)
    requires AnyExhausted(s.successes, Deduplicate(e.outcome.reply.calls))
    ensures var t := Pass(c, s, e);
      && t.chat.messages == Steered(s, e) && Live(t)
      && t.closing == Closing(true, c.say.duplicatePrompt, c.say.toolResultFallback)
      && t.trace.executions == s.trace.executions && t.successes == s.successes
  {
    PassIsReply(c, s, e);
    SteeringJoins(s, e);
    var calls := Deduplicate(e.outcome.reply.calls);
    AnyCallIff(calls, Invalid);
    AnyCallIff(calls, (x: Call) => AtLimit(s.successes, x));
    var i :| 0 <= i < |calls| && (calls[i].name, calls[i].input) in s.successes
      && s.successes[(calls[i].name, calls[i].input)] >= 3;
    assert AtLimit(s.successes, calls[i]);
  }

  predicate NeedsApproval(o: ToolOutcome) {
    o.status.Denied? && o.authorization && o.reason.ApprovalRequired?
  }

  predicate IsBarred(o: ToolOutcome) {
    o.status.Denied? && (o.reason.SandboxBlocked? || o.reason.HardBlacklist?)
  }

  ghost predicate AllOf(calls: seq<Call>, results: string -> ToolOutcome, p: ToolOutcome -> bool) {
    forall i :: 0 <= i < |calls| ==> p(results(calls[i].id))
  }

  ghost predicate SomeOf(calls: seq<Call>, results: string -> ToolOutcome, p: ToolOutcome -> bool) {
    exists i :: 0 <= i < |calls| && p(results(calls[i].id))
  }

  lemma {:induction false} VerdictIs(calls: seq<Call>, results: string -> ToolOutcome)
    requires calls != []
    ensures VerdictOn(calls, results) ==
      if AllOf(calls, results, NeedsApproval) then NeedsPermission
      else if SomeOf(calls, results, IsBarred) then HardDenial
      else if SomeOf(calls, results, (o: ToolOutcome) => o.reason.QuotaReached?) then OverQuota
      else Fine
  {
    TurnRounds.AllCallsIff(calls, (x: Call) => PermissionRequired(results(x.id)));
    AnyCallIff(calls, (x: Call) => HardDenied(results(x.id)));
    AnyCallIff(calls, (x: Call) => QuotaExceeded(results(x.id)));
  }

  /** What the assistant says after a round: that approval is missing, that the iterations are
      spent, or nothing yet. */
  function NoticeAfter(w: Wording, verdict: Verdict, budget: int): Option<string> {
    if verdict.NeedsPermission? then Some(w.permissionNotice)
    else if verdict.Fine? && budget <= 1 then Some(w.limitNotice)
    else None
  }

  function ClosingAfter(w: Wording, verdict: Verdict, before: Closing): Closing {
    match verdict
    case HardDenial => Closing(true, w.safetyPrompt, w.safetyFallback)
    case OverQuota => Closing(true, w.quotaPrompt, w.quotaFallback)
    case _ => before
  }

  /** Otherwise the whole batch runs: its round joins the history, followed by a notice when the
      round ends the turn; a barred call or a spent quota makes the closing request due. */
  lemma {:induction false} RoundIsRecorded(c: Config, s: Turn, e: Event)
    requires Hears(c, s, e) && !s.closing.due && BringsCalls(s, e.outcome.reply)
    requires !AnyExhausted(s.successes, Deduplicate(e.outcome.reply.calls))
    ensures var reply, t := e.outcome.reply, Pass(c, s, e);
      var calls := Deduplicate(reply.calls);
      var verdict := VerdictOn(calls, reply.results);
      var notice := NoticeAfter(c.say, verdict, s.control.budget);
      && t.chat.messages == Steered(s, e) + Round(reply.text, calls, reply.results) + Words(Assistant, notice)
      && (t.control.status.Completed? <==> notice.Some?) && (notice.None? ==> Live(t))
      && t.closing == ClosingAfter(c.say, verdict, s.closing)
      && t.chat.contexts == s.chat.contexts + reply.contexts
      && t.control.justExecutedTools == !t.closing.due
      && t.trace.executions == s.trace.executions + |calls| && t.trace.rounds == s.trace.rounds + 1
  {
    PassIsReply(c, s, e);
    var u, reply := Ask(TakeSteer(s, e.steer)).(transient := ""), e.outcome.reply;
    var calls := Deduplicate(reply.calls);
    AnyCallIff(calls, Invalid);
    AnyCallIff(calls, (x: Call) => AtLimit(s.successes, x));
    var ran := Execute(u, calls, reply);
    assert ran.control == s.control.(justExecutedTools := true) && ran.closing == s.closing;
    VerdictChat(c.say, ran, VerdictOn(calls, reply.results));
    SteeringJoins(s, e);
  }

  /** How a round that has run sends the turn on. */
  lemma {:induction false} VerdictChat(w: Wording, ran: Turn, verdict: Verdict)
    requires Live(ran) && !ran.closing.due && ran.control.justExecutedTools
    ensures var t, notice := AfterTools(w, ran, verdict), NoticeAfter(w, verdict, ran.control.budget);
      && t.chat == ran.chat.(messages := ran.chat.messages + Words(Assistant, notice))
      && (t.control.status.Completed? <==> notice.Some?) && (notice.None? ==> Live(t))
      && t.closing == ClosingAfter(w, verdict, ran.closing)
      && t.control.justExecutedTools == !t.closing.due && t.trace == ran.trace
  {
    assert ran.chat.messages + [] == ran.chat.messages;
  }

  // ---- Failures ---------------------------------------------------------------------

  predicate HasImage(m: Message) {
    exists b | b in BlocksOf(m) :: b.Image?
  }

  predicate HasImages(ms: seq<Message>) {
    exists m | m in ms :: HasImage(m)
  }

  lemma {:induction false} ImagesAreDropped(blocks: seq<Block>)
    ensures |WithoutImages(blocks)| <= |blocks|
    ensures |WithoutImages(blocks)| == |blocks| <==> forall b | b in blocks :: !b.Image?
  {
    if blocks != [] {
      ImagesAreDropped(blocks[1..]);
      assert forall b :: b in blocks <==> b == blocks[0] || b in blocks[1..];
    }
  }

  lemma {:induction false} StrippingChangesIff(w: Wording, m: Message)
    ensures StripImages(w, m) != m <==> HasImage(m)
  {
    if m.content.Blocks? {
      ImagesAreDropped(m.content.blocks);
    }
  }

  lemma {:induction false} StrippingAllChangesIff(w: Wording, ms: seq<Message>)
    ensures StripAllImages(w, ms) != ms <==> HasImages(ms)
  {
    forall i | 0 <= i < |ms|
      ensures StripAllImages(w, ms)[i] != ms[i] <==> HasImage(ms[i])
    {
      StrippingChangesIff(w, ms[i]);
    }
    if HasImages(ms) {
      var m :| m in ms && HasImage(m);
      var i :| 0 <= i < |ms| && ms[i] == m;
      assert StripAllImages(w, ms)[i] != ms[i];
    } else {
      assert forall i | 0 <= i < |ms| :: ms[i] in ms && StripAllImages(w, ms)[i] == ms[i];
    }
  }

  /** A call that is cancelled stops the turn, and leaves the history as it was sent. */
  lemma {:induction false} CancelledCallStops(c: Config, s: Turn, e: Event)
    requires Asks(c, s, e) && e.outcome.Cancelled?
    ensures Pass(c, s, e).chat.messages == Steered(s, e) && Pass(c, s, e).control.status == Stopped
  {
    SteeringJoins(s, e);
  }

  /** A call that fails: the first time it is too long, the history is replaced by a checkpoint, or
      the turn overflows without one; a closing turn ends with its fallback; the first time images
      are refused they are taken out; malformed calls are asked for again, twice; any other error
      ends the turn. */
  lemma {:induction false} FailureOutcome(c: Config, s: Turn, e: Event)
    requires Asks(c, s, e) && e.outcome.Failed?
    ensures var error, t, sent := e.outcome.error, Pass(c, s, e), Steered(s, e);
      if error.overflow && !s.control.overflowRetried then
        if HasCheckpoint(c.budgets, sent, error.checkpoint)
        then IsCheckpointOf(c.budgets, sent, error.checkpoint.value, t) && Live(t) && t.control.overflowRetried
        else t.chat.messages == sent && t.control.status == Overflowed
      else if s.closing.due then
        t.chat.messages == sent + Words(Assistant, Some(s.closing.fallback)) && t.control.status == Completed
      else if error.image && !s.control.imageTextOnly && HasImages(sent) then
        && t.chat.messages == StripAllImages(c.say, sent) + Words(User, Some(c.say.imageNotice))
        && Live(t) && t.control.imageTextOnly
      else if error.parse && s.control.retry.invalidJson < 2 then
        && t.chat.messages == sent && Live(t) && t.transient == c.say.malformed
        && t.control.retry.invalidJson == s.control.retry.invalidJson + 1
      else t.chat.messages == sent && t.control.status == Errored
  {
    SteeringJoins(s, e);
    StrippingAllChangesIff(c.say, Steered(s, e));
    assert Pass(c, s, e) == OnFailure(c, Ask(TakeSteer(s, e.steer)), e.outcome.error);
  }
}
