/** Every turn ends: how many passes and how many model calls a run can take, whatever the
    model, the tools and the user do. */
module TurnBounds {
  import opened Options
  import opened Messages
  import opened Compaction
  import opened ToolCalls
  import opened TurnLoop

  function Left(used: nat, max: nat): nat {
    if used < max then max - used else 0
  }

  function Unused(flag: bool): nat {
    if flag then 0 else 1
  }

  /** Model calls a turn in this state can still make, not counting those bought by
      steering. */
  function Units(c: Control, closing: bool): nat {
    if !c.status.Running? || c.budget <= 0 then 0
    else
      c.budget
      + Left(c.retry.emptyContent, MAX_EMPTY_CONTENT)
      + Left(c.retry.invalidTool, MAX_INVALID_TOOL)
      + Left(c.retry.invalidJson, MAX_INVALID_JSON)
      + Unused(c.overflowRetried) + Unused(c.imageTextOnly) + Unused(c.stopHookActive) + Unused(closing)
  }

  function Allowance(s: Turn): nat {
    Units(s.control, s.closing.due)
  }

  /** The history has changed since it was last compacted. */
  function Uncompacted(s: Turn): nat {
    if |s.chat.messages| != s.chat.lastCompacted then 1 else 0
  }

  lemma {:induction false} FailurePays(c: Config, s: Turn, e: Error)
    requires Live(s)
    ensures OnFailure(c, s, e).trace == s.trace
    ensures Allowance(OnFailure(c, s, e)) + 1 <= Allowance(s)
  {
  }

  lemma {:induction false} AfterToolsPays(w: Wording, s: Turn, verdict: Verdict)
    requires Live(s) && !s.closing.due
    ensures AfterTools(w, s, verdict).trace == s.trace
    ensures Allowance(AfterTools(w, s, verdict)) + 1 <= Allowance(s)
  {
  }

  lemma {:induction false} CallsPay(w: Wording, s: Turn, calls: seq<Call>, reply: Reply)
    requires Live(s) && !s.closing.due
    ensures var t := OnCalls(w, s, calls, reply);
      t.trace.steers == s.trace.steers && t.trace.requests == s.trace.requests && Allowance(t) + 1 <= Allowance(s)
  {
    AfterToolsPays(w, Execute(s, calls, reply), VerdictOn(calls, reply.results));
  }

  lemma {:induction false} EmptyPays(w: Wording, s: Turn)
    requires Live(s) && !s.closing.due
    ensures OnEmpty(w, s).trace == s.trace && Allowance(OnEmpty(w, s)) + 1 <= Allowance(s)
  {
  }

  lemma {:induction false} AnswerPays(w: Wording, s: Turn, reply: Reply)
    requires Live(s) && !s.closing.due
    ensures var t := OnAnswer(w, s, reply);
      && s.trace.steers <= t.trace.steers <= s.trace.steers + 1 && t.trace.requests == s.trace.requests
      && Allowance(t) + 1 <= Allowance(s) + (t.trace.steers - s.trace.steers)
  {
  }

  /** Each reply costs one unit of allowance, unless it is answered with steering. */
  lemma {:induction false} ReplyPays(w: Wording, s: Turn, reply: Reply)
    requires Live(s)
    ensures var t := OnReply(w, s, reply);
      && s.trace.steers <= t.trace.steers <= s.trace.steers + 1 && t.trace.requests == s.trace.requests
      && Allowance(t) + 1 <= Allowance(s) + (t.trace.steers - s.trace.steers)
  {
    if !s.closing.due {
      EmptyPays(w, s);
      AnswerPays(w, s.(transient := ""), reply);
      CallsPay(w, s.(transient := ""), Deduplicate(reply.calls), reply);
    }
  }

  lemma {:induction false} OutcomePays(c: Config, s: Turn, o: Outcome)
    requires Live(s)
    ensures var t := OnOutcome(c, s, o);
      && s.trace.steers <= t.trace.steers <= s.trace.steers + 1 && t.trace.requests == s.trace.requests
      && Allowance(t) + 1 <= Allowance(s) + (t.trace.steers - s.trace.steers)
  {
    match o
    case Cancelled =>
    case Failed(error) => FailurePays(c, s, error);
    case Replied(reply) => ReplyPays(c.say, s, reply);
  }

  function Calls(s: Turn): nat {
    |s.trace.requests|
  }

  function Steers(s: Turn): nat {
    s.trace.steers
  }

  /** A pass either compacts and makes no call, or makes at most one call and pays for it. */
  lemma {:induction false} PassPays(c: Config, s: Turn, e: Event)
    requires Live(s)
    ensures var t := Pass(c, s, e);
      && Steers(s) <= Steers(t) <= Steers(s) + 2
      && Calls(s) <= Calls(t) <= Calls(s) + 1
      && Calls(t) + Allowance(t) <= Calls(s) + Allowance(s) + (Steers(t) - Steers(s))
      && (Live(t) ==>
          2 * Allowance(t) + Uncompacted(t) < 2 * Allowance(s) + Uncompacted(s) + 2 * (Steers(t) - Steers(s)))
  {
    if !e.interrupted {
      var t := TakeSteer(s, e.steer);
      if !CompactsFirst(c, t, e) {
        OutcomePays(c, Ask(t), e.outcome);
      }
    }
  }

  /** Over any run, calls made plus calls still allowed grow only with steering. */
  lemma {:induction false} RunPays(c: Config, s: Turn, events: seq<Event>)
    ensures var t := Run(c, s, events);
      && Steers(s) <= Steers(t) && Calls(s) <= Calls(t)
      && Calls(t) + Allowance(t) <= Calls(s) + Allowance(s) + (Steers(t) - Steers(s))
      && (Live(t) ==>
          |events| + 2 * Allowance(t) + Uncompacted(t)
          <= 2 * Allowance(s) + Uncompacted(s) + 2 * (Steers(t) - Steers(s)))
    decreases |events|
  {
    if events != [] && Live(s) {
      PassPays(c, s, events[0]);
      RunPays(c, Pass(c, s, events[0]), events[1..]);
    }
  }

  /** With an iteration budget of B and S steering messages taken, a turn makes at most
      B + S + 10 model calls. */
  lemma {:induction false} AtMostTenRetries(c: Config, messages: seq<Message>, budget: nat, wasCompressed: bool,
        contexts: seq<string>, skill: Option<string>, events: seq<Event>)
    ensures var t := Run(c, Start(messages, budget, wasCompressed, contexts, skill), events);
      Calls(t) <= budget + Steers(t) + 10
  {
    RunPays(c, Start(messages, budget, wasCompressed, contexts, skill), events);
  }

  /** It ends: a turn that is still going after N passes has taken steering often enough to
      account for them. */
  lemma {:induction false} TurnEnds(c: Config, messages: seq<Message>, budget: nat, wasCompressed: bool,
        contexts: seq<string>, skill: Option<string>, events: seq<Event>)
    ensures var t := Run(c, Start(messages, budget, wasCompressed, contexts, skill), events);
      Live(t) ==> |events| <= 2 * (budget + Steers(t) + 10) + 1
  {
    RunPays(c, Start(messages, budget, wasCompressed, contexts, skill), events);
  }

  /** Compaction never repeats by itself: after a pass that compacted, the next pass asks the
      model or stops, unless the user steered in between. */
  lemma {:induction false} CompactionDoesNotRepeat(c: Config, s: Turn, e: Event, next: Event)
    requires Live(s) && !e.interrupted && CompactsFirst(c, TakeSteer(s, e.steer), e)
    requires next.steer == None
    ensures var t := Pass(c, s, e);
      && Live(t) && t.trace.requests == s.trace.requests
      && !CompactsFirst(c, TakeSteer(t, next.steer), next)
      && (!next.interrupted ==> Calls(Pass(c, t, next)) == Calls(t) + 1)
  {
    var t := Pass(c, s, e);
    if !next.interrupted {
      OutcomePays(c, Ask(t), next.outcome);
    }
  }
}
