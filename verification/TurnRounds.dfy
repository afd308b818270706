/** Tool rounds: how many a turn can run, how each one sends the turn on, and who speaks last. */
module TurnRounds {
  import opened Options
  import opened Messages
  import opened ToolCalls
  import opened TurnLoop
  import opened TurnClosing

  // ---- How many ---------------------------------------------------------------------

  /** Every round has been paid from the budget, except the one that made closing due. */
  predicate RoundsPaid(s: Turn, budget: int) {
    && s.trace.rounds <= budget
    && (Live(s) ==> s.trace.rounds + s.control.budget <= budget + if s.closing.due then 1 else 0)
  }

  lemma {:induction false} CallsStayPaid(w: Wording, s: Turn, calls: seq<Call>, reply: Reply, budget: int)
    requires Live(s) && !s.closing.due && RoundsPaid(s, budget)
    ensures RoundsPaid(OnCalls(w, s, calls, reply), budget)
  {
    var ran := Execute(s, calls, reply);
    assert ran.trace.rounds == s.trace.rounds + 1 && ran.control.budget == s.control.budget;
    assert RoundsPaid(AfterTools(w, ran, VerdictOn(calls, reply.results)), budget);
  }

  lemma {:induction false} AnswerStaysPaid(w: Wording, s: Turn, reply: Reply, budget: int)
    requires Live(s) && !s.closing.due && RoundsPaid(s, budget)
    ensures RoundsPaid(OnAnswer(w, s, reply), budget)
  {
  }

  lemma {:induction false} ReplyStaysPaid(w: Wording, s: Turn, reply: Reply, budget: int)
    requires Live(s) && RoundsPaid(s, budget)
    ensures RoundsPaid(OnReply(w, s, reply), budget)
  {
    var t, calls := s.(transient := ""), Deduplicate(reply.calls);
    if s.closing.due {
      assert Close(s, reply).trace == s.trace;
    } else if reply.text == "" && calls == [] {
      assert RoundsPaid(OnEmpty(w, s), budget);
    } else if calls == [] {
      AnswerStaysPaid(w, t, reply, budget);
    } else {
      CallsStayPaid(w, t, calls, reply, budget);
    }
  }

  lemma {:induction false} FailureStaysPaid(c: Config, s: Turn, e: Error, budget: int)
    requires Live(s) && RoundsPaid(s, budget)
    ensures RoundsPaid(OnFailure(c, s, e), budget)
  {
  }

  lemma {:induction false} PassStaysPaid(c: Config, s: Turn, e: Event, budget: int)
    requires Live(s) && RoundsPaid(s, budget)
    ensures RoundsPaid(Pass(c, s, e), budget)
  {
    if !e.interrupted {
      var t := TakeSteer(s, e.steer);
      if !CompactsFirst(c, t, e) {
        match e.outcome
        case Cancelled =>
        case Failed(error) => FailureStaysPaid(c, Ask(t), error, budget);
        case Replied(reply) => ReplyStaysPaid(c.say, Ask(t), reply, budget);
      }
    }
  }

  lemma {:induction false} RoundsStayPaid(c: Config, s: Turn, events: seq<Event>, budget: int)
    requires RoundsPaid(s, budget)
    ensures RoundsPaid(Run(c, s, events), budget)
    decreases |events|
  {
    if events != [] && Live(s) {
      PassStaysPaid(c, s, events[0], budget);
      RoundsStayPaid(c, Pass(c, s, events[0]), events[1..], budget);
    }
  }

  /** The iteration limit bounds the tool rounds of a turn, whatever else happens in it. */
  lemma {:induction false} RoundsWithinBudget(c: Config, messages: seq<Message>, budget: nat, wasCompressed: bool,
        contexts: seq<string>, skill: Option<string>, events: seq<Event>)
    ensures Run(c, Start(messages, budget, wasCompressed, contexts, skill), events).trace.rounds <= budget
  {
    RoundsStayPaid(c, Start(messages, budget, wasCompressed, contexts, skill), events, budget);
  }

  // ---- How a round sends the turn on ------------------------------------------------

  ghost predicate Every(calls: seq<Call>, p: Call -> bool) {
    forall i :: 0 <= i < |calls| ==> p(calls[i])
  }

  ghost predicate Any(calls: seq<Call>, p: Call -> bool) {
    exists i :: 0 <= i < |calls| && p(calls[i])
  }

  lemma {:induction false} AllCallsIff(calls: seq<Call>, p: Call -> bool)
    ensures AllCalls(calls, p) <==> Every(calls, p)
  {
    if calls != [] {
      AllCallsIff(calls[1..], p);
      assert Every(calls, p) ==> Every(calls[1..], p);
      forall i | 0 <= i < |calls|
        ensures AllCalls(calls, p) ==> p(calls[i])
      {
        assert i > 0 ==> calls[1..][i - 1] == calls[i];
      }
    }
  }

  /** A round ends the turn when the user must approve every call of it, or when it uses up the
      budget and no call was barred or over quota; it closes the turn when one was; otherwise
      it costs one iteration. */
  lemma {:induction false} RoundOutcome(w: Wording, s: Turn, calls: seq<Call>, results: string -> ToolOutcome)
    requires Live(s) && !s.closing.due && calls != []
    ensures var t := AfterTools(w, s, VerdictOn(calls, results));
      var approval := Every(calls, (c: Call) => PermissionRequired(results(c.id)));
      var denied := Any(calls, (c: Call) => HardDenied(results(c.id)));
      var barred := denied || Any(calls, (c: Call) => QuotaExceeded(results(c.id)));
      && (t.control.status.Completed? <==> approval || (!barred && s.control.budget == 1))
      && (t.closing.due <==> !approval && barred)
      && t.control.budget == (if approval || barred then s.control.budget else s.control.budget - 1)
  {
    AllCallsIff(calls, (c: Call) => PermissionRequired(results(c.id)));
    AnyCallIff(calls, (c: Call) => HardDenied(results(c.id)));
    AnyCallIff(calls, (c: Call) => QuotaExceeded(results(c.id)));
  }

  // ---- Who speaks last --------------------------------------------------------------

  predicate CompletedProperly(s: Turn) {
    s.control.status.Completed? ==> AssistantSpokeLast(s)
  }

  lemma {:induction false} FailureCompletesProperly(c: Config, s: Turn, e: Error)
    requires Live(s)
    ensures CompletedProperly(OnFailure(c, s, e))
  {
  }

  lemma {:induction false} CallsCompleteProperly(w: Wording, s: Turn, calls: seq<Call>, reply: Reply)
    requires Live(s)
    ensures CompletedProperly(OnCalls(w, s, calls, reply))
  {
    var ran := Execute(s, calls, reply);
    assert ran.control.status.Running?;
    assert CompletedProperly(AfterTools(w, ran, VerdictOn(calls, reply.results)));
  }

  lemma {:induction false} ReplyCompletesProperly(w: Wording, s: Turn, reply: Reply)
    requires Live(s)
    ensures CompletedProperly(OnReply(w, s, reply))
  {
    var t, calls := s.(transient := ""), Deduplicate(reply.calls);
    if s.closing.due {
      FirstReplyCloses(w, s, reply);
    } else if reply.text == "" && calls == [] {
      assert CompletedProperly(OnEmpty(w, s));
    } else if calls == [] {
      assert CompletedProperly(OnAnswer(w, t, reply));
    } else {
      CallsCompleteProperly(w, t, calls, reply);
    }
  }

  lemma {:induction false} OutcomeCompletesProperly(c: Config, s: Turn, o: Outcome)
    requires Live(s)
    ensures CompletedProperly(OnOutcome(c, s, o))
  {
    match o
    case Cancelled =>
    case Failed(error) => FailureCompletesProperly(c, s, error);
    case Replied(reply) => ReplyCompletesProperly(c.say, s, reply);
  }

  lemma {:induction false} CompletedTurnsEndOnTheAssistant(c: Config, s: Turn, events: seq<Event>)
    requires CompletedProperly(s)
    ensures CompletedProperly(Run(c, s, events))
    decreases |events|
  {
    if events != [] && Live(s) {
      var e := events[0];
      var t := TakeSteer(s, e.steer);
      if !e.interrupted && !CompactsFirst(c, t, e) {
        OutcomeCompletesProperly(c, Ask(t), e.outcome);
      }
      CompletedTurnsEndOnTheAssistant(c, Pass(c, s, e), events[1..]);
    }
  }

  /** The loop is over and reports a completed turn: a pass completed it, or there was no
      iteration to spend. */
  predicate ReportedCompleted(s: Turn) {
    s.control.status.Completed? || (s.control.status.Running? && s.control.budget <= 0)
  }

  /** As long as the loop goes on there is an iteration left. */
  predicate HasBudget(s: Turn) {
    s.control.status.Running? ==> s.control.budget > 0
  }

  lemma {:induction false} AnswerLeavesBudget(w: Wording, s: Turn, reply: Reply)
    requires Live(s)
    ensures HasBudget(OnAnswer(w, s, reply))
  {
  }

  lemma {:induction false} CallsLeaveBudget(w: Wording, s: Turn, calls: seq<Call>, reply: Reply)
    requires Live(s)
    ensures HasBudget(OnCalls(w, s, calls, reply))
  {
    var ran := Execute(s, calls, reply);
    assert ran.control.status == s.control.status && ran.control.budget == s.control.budget;
    assert HasBudget(AfterTools(w, ran, VerdictOn(calls, reply.results)));
  }

  lemma {:induction false} ReplyLeavesBudget(w: Wording, s: Turn, reply: Reply)
    requires Live(s)
    ensures HasBudget(OnReply(w, s, reply))
  {
    var t, calls := s.(transient := ""), Deduplicate(reply.calls);
    if s.closing.due {
      assert HasBudget(Close(s, reply));
    } else if reply.text == "" && calls == [] {
      assert HasBudget(OnEmpty(w, s));
    } else if calls == [] {
      AnswerLeavesBudget(w, t, reply);
    } else {
      CallsLeaveBudget(w, t, calls, reply);
    }
  }

  lemma {:induction false} FailureLeavesBudget(c: Config, s: Turn, e: Error)
    requires Live(s)
    ensures HasBudget(OnFailure(c, s, e))
  {
  }

  lemma {:induction false} PassLeavesBudget(c: Config, s: Turn, e: Event)
    requires Live(s)
    ensures HasBudget(Pass(c, s, e))
  {
    if !e.interrupted {
      var t := TakeSteer(s, e.steer);
      if !CompactsFirst(c, t, e) {
        match e.outcome
        case Cancelled =>
        case Failed(error) => FailureLeavesBudget(c, Ask(t), error);
        case Replied(reply) => ReplyLeavesBudget(c.say, Ask(t), reply);
      }
    }
  }

  lemma {:induction false} RunLeavesBudget(c: Config, s: Turn, events: seq<Event>)
    requires HasBudget(s)
    ensures HasBudget(Run(c, s, events))
    decreases |events|
  {
    if events != [] && Live(s) {
      PassLeavesBudget(c, s, events[0]);
      RunLeavesBudget(c, Pass(c, s, events[0]), events[1..]);
    }
  }

  /** A turn reported as completed ends on a message of the assistant exactly when it had an
      iteration to spend. With none the code reports a completed turn that ends on the user's
      message, and has asked nothing. */
  lemma {:induction false} ReportedTurnsEndOnTheAssistantIff(c: Config, s: Turn, events: seq<Event>)
    requires s.control.status.Running? && !AssistantSpokeLast(s)
    requires ReportedCompleted(Run(c, s, events))
    ensures AssistantSpokeLast(Run(c, s, events)) <==> s.control.budget > 0
    ensures s.control.budget <= 0 ==> Run(c, s, events) == s
  {
    if s.control.budget > 0 {
      RunLeavesBudget(c, s, events);
      CompletedTurnsEndOnTheAssistant(c, s, events);
    }
  }
}
