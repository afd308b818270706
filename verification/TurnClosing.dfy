/** A turn that has been told to finish without tools does so; the two instructions a request
    can carry; and the fate of the skill text. */
module TurnClosing {
  import opened Options
  import opened Messages
  import opened ToolCalls
  import opened TurnLoop
  import Compaction
  import ToolPairs
  import TurnBounds

  predicate AssistantSpokeLast(s: Turn) {
    s.chat.messages != [] && s.chat.messages[|s.chat.messages| - 1].role.Assistant?
  }

  // ---- Closing without tools --------------------------------------------------------

  /** The state of a closing turn, compared with the state in which closing became due. */
  ghost predicate StillClosing(from: Turn, s: Turn) {
    && s.trace.executions == from.trace.executions
    && from.trace.requests <= s.trace.requests
    && (forall i :: |from.trace.requests| <= i < |s.trace.requests| ==> !s.trace.requests[i].offersTools)
    && (Live(s) ==> s.closing.due)
    && (s.control.status.Completed? ==> AssistantSpokeLast(s))
  }

  lemma {:induction false} ClosingFailure(c: Config, s: Turn, e: Error)
    requires Live(s) && s.closing.due
    ensures var t := OnFailure(c, s, e);
      && t.trace == s.trace && t.closing == s.closing
      && (t.control.status.Completed? ==> AssistantSpokeLast(t))
  {
  }

  /** The first reply to a closing request ends the turn, and the assistant has the last
      word, whatever tools the reply asks for. */
  lemma {:induction false} FirstReplyCloses(w: Wording, s: Turn, reply: Reply)
    requires Live(s) && s.closing.due
    ensures var t := OnReply(w, s, reply);
      && t.control.status == Completed && AssistantSpokeLast(t)
      && |t.chat.messages| == |s.chat.messages| + 1 && s.chat.messages <= t.chat.messages
      && t.chat.messages[|s.chat.messages|]
          == Note(Assistant, if reply.text == "" then s.closing.fallback else Strip(reply.text))
      && t.trace == s.trace && t.successes == s.successes
  {
  }

  lemma {:induction false} ClosingPass(c: Config, from: Turn, s: Turn, e: Event)
    requires Live(s) && StillClosing(from, s)
    ensures StillClosing(from, Pass(c, s, e))
  {
    if !e.interrupted {
      var t := TakeSteer(s, e.steer);
      if !CompactsFirst(c, t, e) {
        var u := Ask(t);
        match e.outcome
        case Cancelled =>
        case Failed(error) => ClosingFailure(c, u, error);
        case Replied(reply) => FirstReplyCloses(c.say, u, reply);
      }
    }
  }

  /** Somewhere along the run the model is asked and replies. */
  predicate HearsReply(c: Config, s: Turn, events: seq<Event>)
    decreases |events|
  {
    events != [] && Live(s) && (Hears(c, s, events[0]) || HearsReply(c, Pass(c, s, events[0]), events[1..]))
  }

  /** The first reply of a closing turn completes it: whatever else happens before and after,
      the assistant has the last word and no tool has run. */
  lemma {:induction false} FirstReplyEndsTheTurn(c: Config, from: Turn, s: Turn, events: seq<Event>)
    requires Live(s) && StillClosing(from, s) && HearsReply(c, s, events)
    ensures var t := Run(c, s, events);
      t.control.status == Completed && AssistantSpokeLast(t) && t.trace.executions == from.trace.executions
    decreases |events|
  {
    var e, next := events[0], Pass(c, s, events[0]);
    ClosingPass(c, from, s, e);
    if Hears(c, s, e) {
      FirstReplyCloses(c.say, Ask(TakeSteer(s, e.steer)), e.outcome.reply);
      assert Run(c, next, events[1..]) == next;
    } else {
      FirstReplyEndsTheTurn(c, from, next, events[1..]);
    }
  }

  /** Once closing is due, no tool runs again, no later request offers tools, and a completed
      turn ends on the assistant. */
  lemma {:induction false} NoToolsWhileClosing(c: Config, from: Turn, s: Turn, events: seq<Event>)
    requires StillClosing(from, s)
    ensures StillClosing(from, Run(c, s, events))
    decreases |events|
  {
    if events != [] && Live(s) {
      ClosingPass(c, from, s, events[0]);
      NoToolsWhileClosing(c, from, Pass(c, s, events[0]), events[1..]);
    }
  }

  /** A hard denial, an exhausted tool quota, or a call already made three times is the last
      tool activity of the turn, whatever happens afterwards. */
  lemma {:induction false} DenialEndsToolUse(c: Config, s: Turn, calls: seq<Call>, reply: Reply, events: seq<Event>)
    requires Live(s)
    ensures var ran := Execute(s, calls, reply);
      var verdict := VerdictOn(calls, reply.results);
      verdict == HardDenial || verdict == OverQuota ==>
        StillClosing(ran, Run(c, AfterTools(c.say, ran, verdict), events))
    ensures AnyCall(calls, (x: Call) => AtLimit(s.successes, x)) ==>
        StillClosing(s, Run(c, OnCalls(c.say, s, calls, reply), events))
  {
    var ran := Execute(s, calls, reply);
    var verdict := VerdictOn(calls, reply.results);
    if verdict == HardDenial || verdict == OverQuota {
      NoToolsWhileClosing(c, ran, AfterTools(c.say, ran, verdict), events);
    }
    if AnyCall(calls, (x: Call) => AtLimit(s.successes, x)) {
      NoToolsWhileClosing(c, s, OnCalls(c.say, s, calls, reply), events);
    }
  }

  /** An empty reply right after a tool round closes the turn the same way, once. */
  lemma {:induction false} EmptyAfterToolsEndsToolUse(c: Config, s: Turn, events: seq<Event>)
    requires Live(s) && s.control.justExecutedTools && !s.control.retry.postToolEmpty
    ensures StillClosing(s, Run(c, OnEmpty(c.say, s), events))
  {
    NoToolsWhileClosing(c, s, OnEmpty(c.say, s), events);
  }

  // ---- Instructions -----------------------------------------------------------------

  /** While the turn runs, closing is due exactly when there is a closing instruction. */
  predicate InstructionMatches(s: Turn) {
    Live(s) ==> (s.closing.due <==> s.closing.instruction != "")
  }

  lemma {:induction false} CallsMatch(w: Wording, s: Turn, calls: seq<Call>, reply: Reply)
    requires w.Usable() && Live(s) && InstructionMatches(s)
    ensures InstructionMatches(OnCalls(w, s, calls, reply))
  {
    var ran := Execute(s, calls, reply);
    assert InstructionMatches(AfterTools(w, ran, VerdictOn(calls, reply.results)));
  }

  lemma {:induction false} OutcomeMatches(c: Config, s: Turn, o: Outcome)
    requires c.say.Usable() && Live(s) && InstructionMatches(s)
    ensures InstructionMatches(OnOutcome(c, s, o))
  {
    match o
    case Cancelled =>
    case Failed(error) =>
    case Replied(reply) =>
      if s.closing.due {
        FirstReplyCloses(c.say, s, reply);
      } else if reply.text != "" || Deduplicate(reply.calls) != [] {
        CallsMatch(c.say, s.(transient := ""), Deduplicate(reply.calls), reply);
      }
  }

  lemma {:induction false} InstructionAlwaysMatches(c: Config, s: Turn, events: seq<Event>)
    requires c.say.Usable() && InstructionMatches(s)
    ensures InstructionMatches(Run(c, s, events))
    decreases |events|
  {
    if events != [] && Live(s) {
      var e := events[0];
      var t := TakeSteer(s, e.steer);
      if !e.interrupted && !CompactsFirst(c, t, e) {
        OutcomeMatches(c, Ask(t), e.outcome);
      }
      InstructionAlwaysMatches(c, Pass(c, s, e), events[1..]);
    }
  }

  // ---- The skill text ---------------------------------------------------------------

  lemma {:induction false} SkillGone(c: Config, s: Turn, e: Event)
    requires Live(s) && s.chat.skill == None
    ensures var t := Pass(c, s, e);
      && t.chat.skill == None
      && (t.trace.requests == s.trace.requests
          || exists r: Request :: r.skill == None && t.trace.requests == s.trace.requests + [r])
  {
    if !e.interrupted {
      var t := TakeSteer(s, e.steer);
      if !CompactsFirst(c, t, e) {
        TurnBounds.OutcomePays(c, Ask(t), e.outcome);
        KeepsSkill(c, Ask(t), e.outcome);
        assert t.trace.requests == s.trace.requests && NextRequest(t).skill == None;
      }
    }
  }

  lemma {:induction false} KeepsSkill(c: Config, s: Turn, o: Outcome)
    requires Live(s)
    ensures OnOutcome(c, s, o).chat.skill == s.chat.skill
  {
    match o
    case Cancelled =>
    case Failed(error) =>
    case Replied(reply) => ReplyKeepsSkill(c.say, s, reply);
  }

  lemma {:induction false} CallsKeepSkill(w: Wording, s: Turn, calls: seq<Call>, reply: Reply)
    ensures OnCalls(w, s, calls, reply).chat.skill == s.chat.skill
  {
    assert AfterTools(w, Execute(s, calls, reply), VerdictOn(calls, reply.results)).chat.skill == s.chat.skill;
  }

  lemma {:induction false} ReplyKeepsSkill(w: Wording, s: Turn, reply: Reply)
    ensures OnReply(w, s, reply).chat.skill == s.chat.skill
  {
    var t, calls := s.(transient := ""), Deduplicate(reply.calls);
    if !s.closing.due && (reply.text != "" || calls != []) {
      if calls == [] {
        assert OnAnswer(w, t, reply).chat.skill == s.chat.skill;
      } else {
        CallsKeepSkill(w, t, calls, reply);
      }
    }
  }

  lemma {:induction false} SkillNeverReturns(c: Config, s: Turn, events: seq<Event>, n: nat)
    requires s.chat.skill == None && n <= |s.trace.requests|
    requires forall i :: n <= i < |s.trace.requests| ==> s.trace.requests[i].skill == None
    ensures var requests := Run(c, s, events).trace.requests;
      s.trace.requests <= requests && forall i :: n <= i < |requests| ==> requests[i].skill == None
    decreases |events|
  {
    if events != [] && Live(s) {
      SkillGone(c, s, events[0]);
      SkillNeverReturns(c, Pass(c, s, events[0]), events[1..], n);
    }
  }

  /** The first pass of the turn asks the model instead of stopping or compacting. */
  predicate AsksFirst(c: Config, s: Turn, events: seq<Event>) {
    events != [] && Live(s) && !events[0].interrupted && !CompactsFirst(c, TakeSteer(s, events[0].steer), events[0])
  }

  lemma {:induction false} FirstPassSkill(c: Config, s: Turn, e: Event)
    requires Live(s) && s.trace.requests == []
    ensures e.interrupted ==> !Live(Pass(c, s, e)) && Pass(c, s, e).trace.requests == []
    ensures !e.interrupted ==> Pass(c, s, e).chat.skill == None
    ensures !e.interrupted && CompactsFirst(c, TakeSteer(s, e.steer), e) ==> Pass(c, s, e).trace.requests == []
    ensures !e.interrupted && !CompactsFirst(c, TakeSteer(s, e.steer), e) ==>
      |Pass(c, s, e).trace.requests| == 1 && Pass(c, s, e).trace.requests[0].skill == s.chat.skill
  {
    if !e.interrupted {
      var t := TakeSteer(s, e.steer);
      if !CompactsFirst(c, t, e) {
        TurnBounds.OutcomePays(c, Ask(t), e.outcome);
        KeepsSkill(c, Ask(t), e.outcome);
      }
    }
  }

  /** The skill text is meant to be injected once. It is never sent twice, and it is sent at
      all exactly when the first pass asks the model: a first pass that compacts has already
      consumed it. */
  lemma {:induction false} SkillIsSentIff(c: Config, s: Turn, events: seq<Event>)
    requires s.chat.skill.Some? && s.trace.requests == []
    ensures forall i :: 1 <= i < |Run(c, s, events).trace.requests| ==>
        Run(c, s, events).trace.requests[i].skill == None
    ensures (exists i :: 0 <= i < |Run(c, s, events).trace.requests| && Run(c, s, events).trace.requests[i].skill.Some?)
       <==> AsksFirst(c, s, events)
  {
    if events != [] && Live(s) {
      FirstPassSkill(c, s, events[0]);
      var u := Pass(c, s, events[0]);
      if !events[0].interrupted {
        SkillNeverReturns(c, u, events[1..], |u.trace.requests|);
        var requests := Run(c, s, events).trace.requests;
        assert AsksFirst(c, s, events) ==> requests[0] == u.trace.requests[0];
      }
    }
  }

  /** The case is real on every turn with some history: when its first pass compacts, no request
      carries the skill text. */
  lemma {:induction false} SkillIsLost(c: Config, messages: seq<Message>, budget: nat, contexts: seq<string>,
        skill: string, summary: string, more: seq<Event>) returns (e: Event)
    requires |messages| > 1 && budget > 0
    ensures var run := Run(c, Start(messages, budget, false, contexts, Some(skill)), [e] + more);
      forall i :: 0 <= i < |run.trace.requests| ==> run.trace.requests[i].skill == None
  {
    var s := Start(messages, budget, false, contexts, Some(skill));
    var order := ToolPairs.Enumerate(Compaction.RecentTail(c.budgets, messages));
    e := Event(false, None, true, Some(Checkpoint(summary, order)), Cancelled);
    assert Compact(c.budgets, messages, e.midTurn).Some?;
    assert !AsksFirst(c, s, [e] + more);
    SkillIsSentIff(c, s, [e] + more);
  }

  // ---- Both instructions at once ----------------------------------------------------

  function Plainly(o: Outcome): Event {
    Event(false, None, false, None, o)
  }

  /** A reply with one call, which succeeds. */
  function OneCall(name: string, input: string): Reply {
    Reply("", [RawCall("a", name, input)], (id: string) => ToolOutcome(Success, false, OtherReason(""), ""), [], None,
        None)
  }

  const NOTHING := Reply("", [], (id: string) => ToolOutcome(Success, false, OtherReason(""), ""), [], None, None)
  const MALFORMED := Error(false, false, true, None)

  /** A turn in which nothing has gone wrong yet, with iterations to spare. */
  predicate Unspoilt(s: Turn) {
    Live(s) && !s.closing.due && s.control.retry == Retry(0, 0, 0, false)
  }

  lemma {:induction false} OneCallRuns(c: Config, s: Turn, name: string, input: string)
    requires Unspoilt(s) && s.control.budget >= 2 && input != "" && s.successes == map[]
    ensures var t := Pass(c, s, Plainly(Replied(OneCall(name, input))));
      Unspoilt(t) && t.control.justExecutedTools
  {
    var reply := OneCall(name, input);
    var calls := [Call("a", name, input)];
    OneIsKept('a', name, input);
    AnyCallIff(calls, Invalid);
    AnyCallIff(calls, (x: Call) => AtLimit(s.successes, x));
    AnyCallIff(calls, (x: Call) => HardDenied(reply.results(x.id)));
    AnyCallIff(calls, (x: Call) => QuotaExceeded(reply.results(x.id)));
    var approval := (x: Call) => PermissionRequired(reply.results(x.id));
    assert !approval(calls[0]);
    assert !AllCalls(calls, approval);
    assert VerdictOn(calls, reply.results) == Fine;
    OneCallOutcome(c.say, Ask(s).(transient := ""), calls, reply);
  }

  lemma {:induction false} OneCallOutcome(w: Wording, s: Turn, calls: seq<Call>, reply: Reply)
    requires Unspoilt(s) && s.control.budget >= 2
    ensures var t := AfterTools(w, Execute(s, calls, reply), Fine);
      Unspoilt(t) && t.control.justExecutedTools
  {
  }

  lemma {:induction false} MalformedThenEmpty(c: Config, s: Turn)
    requires Unspoilt(s) && s.control.justExecutedTools
    ensures var t := Pass(c, Pass(c, s, Plainly(Failed(MALFORMED))), Plainly(Replied(NOTHING)));
      Live(t) && t.transient == c.say.malformed
          && t.closing == Closing(true, c.say.toolResultPrompt, c.say.toolResultFallback)
  {
    var t := Pass(c, s, Plainly(Failed(MALFORMED)));
    assert t == Nudge(Ask(s), Retry(0, 0, 1, false), c.say.malformed);
    assert Deduplicate([]) == [];
  }

  /** A malformed reply keeps the mark of a tool round, so an empty reply after it makes
      closing due while the nudge of the malformed one still stands. From any history, a tool
      call, a malformed reply and an empty one lead to a request that carries both
      instructions. */
  lemma {:induction false} BothInstructionsReachable(c: Config, messages: seq<Message>, budget: nat,
        wasCompressed: bool, contexts: seq<string>, skill: Option<string>)
    returns (events: seq<Event>, r: Request)
    requires budget >= 2
    ensures r in Run(c, Start(messages, budget, wasCompressed, contexts, skill), events).trace.requests
    ensures r.transient == c.say.malformed && r.finalization == c.say.toolResultPrompt && !r.offersTools
  {
    var s := Start(messages, budget, wasCompressed, contexts, skill);
    var e1, e2, e3, e4 := Plainly(Replied(OneCall("read", "{}"))), Plainly(Failed(MALFORMED)),
        Plainly(Replied(NOTHING)), Plainly(Cancelled);
    OneCallRuns(c, s, "read", "{}");
    var s1 := Pass(c, s, e1);
    MalformedThenEmpty(c, s1);
    var s2 := Pass(c, s1, e2);
    var s3 := Pass(c, s2, e3);
    r := NextRequest(s3);
    LastAsks(c, s3);
    events := [e1, e2, e3, e4];
    FourPasses(c, s, e1, e2, e3, e4);
  }

  lemma {:induction false} LastAsks(c: Config, s: Turn)
    requires Live(s)
    ensures Pass(c, s, Plainly(Cancelled)).trace.requests == s.trace.requests + [NextRequest(s)]
  {
  }

  lemma {:induction false} FourPasses(c: Config, s: Turn, e1: Event, e2: Event, e3: Event, e4: Event)
    requires Live(s) && Live(Pass(c, s, e1)) && Live(Pass(c, Pass(c, s, e1), e2))
    requires Live(Pass(c, Pass(c, Pass(c, s, e1), e2), e3))
    ensures Run(c, s, [e1, e2, e3, e4]) == Pass(c, Pass(c, Pass(c, Pass(c, s, e1), e2), e3), e4)
  {
    var s1 := Pass(c, s, e1);
    var s2 := Pass(c, s1, e2);
    var s3 := Pass(c, s2, e3);
    assert [e1, e2, e3, e4][1..] == [e2, e3, e4] && [e2, e3, e4][1..] == [e3, e4] && [e3, e4][1..] == [e4]
        && [e4][1..] == [];
    assert Run(c, s3, [e4]) == Run(c, Pass(c, s3, e4), []);
    assert Run(c, s2, [e3, e4]) == Run(c, s3, [e4]);
    assert Run(c, s1, [e2, e3, e4]) == Run(c, s2, [e3, e4]);
  }
}
