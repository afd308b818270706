/** The agent loop as it runs: an object whose fields one pass after another updates in
    place, proved against the passes of the turn model. */
module AgentLoop {
  import opened Options
  import opened Messages
  import opened Compaction
  import opened ToolCalls
  import opened TurnLoop
  import TurnBounds
  import TurnOutcomes
  import TurnSafety

  /** The object a turn runs on; the loop's local flags and the turn context are fields of
      it, each group a record. */
  class Agent {
    const config: Config
    var control: Control
    var closing: Closing
    var transientInstruction: string
    var context: Chat
    var successfulToolCalls: map<Signature, nat>
    ghost var trace: Trace

    /** The turn this object is in the middle of. */
    ghost function State(): Turn
      reads this
    {
      Turn(control, closing, transientInstruction, context, successfulToolCalls, trace)
    }

    constructor (config: Config, messages: seq<Message>, maxIterations: int, wasCompressed: bool,
          contexts: seq<string>, skill: Option<string>)
      ensures this.config == config
      ensures State() == Start(messages, maxIterations, wasCompressed, contexts, skill)
    {
      this.config := config;
      control := Control(Running, maxIterations, Retry(0, 0, 0, false), false, false, false, false);
      closing, transientInstruction := Closing(false, "", ""), "";
      var last := BeforeLast(messages);
      context := Chat(messages, if wasCompressed then |messages| else -1, last, contexts, skill,
                      Stored(messages[..last], false));
      successfulToolCalls, trace := map[], Trace([], 0, 0, 0);
    }

    method Append(m: Message)
      modifies this`context
      ensures context == old(context).(messages := old(context).messages + [m])
    {
      context := context.(messages := context.messages + [m]);
    }

    method End(status: Status)
      modifies this`control
      ensures control == old(control).(status := status)
    {
      control := control.(status := status);
    }

    method ConsumeSteer(steer: Option<string>)
      modifies this`context, this`trace
      ensures State() == TakeSteer(old(State()), steer)
      ensures TurnSafety.Paired(old(State())) ==> TurnSafety.Paired(State())
    {
      ghost var before := State();
      if steer.Some? {
        Append(Note(User, steer.value));
        trace := trace.(steers := trace.steers + 1);
      }
      if TurnSafety.Paired(before) {
        TurnSafety.SteerStaysPaired(config.say, before, steer);
      }
    }

    method ScheduleFinalization(instruction: string, fallback: string)
      modifies this`closing, this`control
      ensures State() == Finalize(old(State()), instruction, fallback)
    {
      closing := Closing(true, instruction, fallback);
      control := control.(justExecutedTools := false);
    }

    /** Replaces the history by its checkpoint, when there is one. */
    method CompactActiveContext(checkpoint: Option<Checkpoint>) returns (compacted: bool)
      modifies this`context
      ensures var made := Compact(config.budgets, old(context).messages, checkpoint);
        && compacted == made.Some?
        && State() == if compacted then Adopt(old(State()), made.value) else old(State())
      ensures compacted ==> TurnBounds.Uncompacted(State()) == 0 && context.userIndex == |context.messages|
    {
      var made := Compact(config.budgets, context.messages, checkpoint);
      compacted := made.Some?;
      if compacted {
        var n := |made.value|;
        context := context.(messages := made.value, lastCompacted := n, userIndex := n,
                              stored := Stored(made.value, true));
      }
    }

    method StripImageBlocks() returns (stripped: bool)
      modifies this`context
      ensures context == old(context).(messages := StripAllImages(config.say, old(context).messages))
      ensures stripped == (context.messages != old(context).messages)
    {
      stripped := false;
      var messages := context.messages;
      ghost var before := messages;
      var i := 0;
      while i < |messages|
        invariant 0 <= i <= |messages| == |before|
        invariant forall j :: 0 <= j < i ==> messages[j] == StripImages(config.say, before[j])
        invariant forall j :: i <= j < |before| ==> messages[j] == before[j]
        invariant stripped == (messages != before)
      {
        var cleaned := StripImages(config.say, messages[i]);
        if cleaned != messages[i] {
          messages := messages[i := cleaned];
          assert messages[i] != before[i];
          stripped := true;
        }
        i := i + 1;
      }
      assert messages == StripAllImages(config.say, before);
      context := context.(messages := messages);
    }

    method HandleFailure(error: Error)
      requires Live(State())
      modifies this
      ensures State() == OnFailure(config, old(State()), error)
      ensures trace == old(trace) && TurnBounds.Allowance(State()) < TurnBounds.Allowance(old(State()))
    {
      TurnBounds.FailurePays(config, State(), error);
      var retry := control.retry;
      if error.overflow && !control.overflowRetried {
        control := control.(overflowRetried := true);
        var compacted := CompactActiveContext(error.checkpoint);
        if !compacted {
          End(Overflowed);
        }
        return;
      }
      if closing.due {
        Append(Note(Assistant, closing.fallback));
        End(Completed);
        return;
      }
      if error.image && !control.imageTextOnly {
        var stripped := StripImageBlocks();
        if stripped {
          control := control.(imageTextOnly := true);
          Append(Note(User, config.say.imageNotice));
          return;
        }
      }
      if error.parse && retry.invalidJson < MAX_INVALID_JSON {
        control := control.(retry := retry.(invalidJson := retry.invalidJson + 1));
        transientInstruction := config.say.malformed;
        return;
      }
      End(Errored);
    }

    method HandleEmpty()
      requires Live(State()) && !closing.due
      modifies this
      ensures State() == OnEmpty(config.say, old(State()))
      ensures trace == old(trace) && TurnBounds.Allowance(State()) < TurnBounds.Allowance(old(State()))
    {
      TurnBounds.EmptyPays(config.say, State());
      var retry := control.retry;
      if control.justExecutedTools && !retry.postToolEmpty {
        control := control.(retry := retry.(postToolEmpty := true));
        ScheduleFinalization(config.say.toolResultPrompt, config.say.toolResultFallback);
      } else if retry.emptyContent < MAX_EMPTY_CONTENT {
        control := control.(retry := retry.(emptyContent := retry.emptyContent + 1), justExecutedTools := false);
        transientInstruction := config.say.emptyReply;
      } else {
        Append(Note(Assistant, config.say.emptyFallback));
        End(Completed);
      }
    }

    method HandleAnswer(reply: Reply)
      requires Live(State()) && !closing.due
      modifies this
      ensures State() == OnAnswer(config.say, old(State()), reply)
      ensures trace.requests == old(trace).requests
      ensures TurnBounds.Allowance(State()) + 1 <= TurnBounds.Allowance(old(State()))
          + (trace.steers - old(trace).steers)
    {
      TurnBounds.AnswerPays(config.say, State(), reply);
      Append(Note(Assistant, reply.text));
      ConsumeSteer(reply.steer);
      if reply.steer.Some? {
        control := control.(justExecutedTools := false);
      } else if !control.stopHookActive && reply.hook.Some? {
        context := context.(contexts := context.contexts + [config.say.hookHeader + reply.hook.value]);
        control := control.(stopHookActive := true, justExecutedTools := false);
      } else {
        End(Completed);
      }
    }

    /** Appends the round of a batch of calls and counts its successes. */
    method ExecuteCalls(calls: seq<Call>, reply: Reply)
      modifies this
      ensures State() == Execute(old(State()), calls, reply)
    {
      var round := Round(reply.text, calls, reply.results);
      context := context.(messages := context.messages + round, contexts := context.contexts + reply.contexts);
      control := control.(justExecutedTools := true);
      trace := trace.(executions := trace.executions + |calls|, rounds := trace.rounds + 1);
      ghost var before := successfulToolCalls;
      ghost var s := State();
      var i := 0;
      while i < |calls|
        invariant 0 <= i <= |calls|
        invariant successfulToolCalls == Tally(before, calls, reply.results, i)
        invariant State() == s.(successes := successfulToolCalls)
        modifies this`successfulToolCalls
      {
        if reply.results(calls[i].id).status.Success? {
          successfulToolCalls := Succeeded(successfulToolCalls, SignatureOf(calls[i]));
        }
        i := i + 1;
      }
    }

    method HandleVerdict(verdict: Verdict)
      requires Live(State()) && !closing.due
      modifies this
      ensures State() == AfterTools(config.say, old(State()), verdict)
      ensures trace == old(trace) && TurnBounds.Allowance(State()) < TurnBounds.Allowance(old(State()))
    {
      TurnBounds.AfterToolsPays(config.say, State(), verdict);
      match verdict {
        case NeedsPermission =>
          Append(Note(Assistant, config.say.permissionNotice));
          End(Completed);
        case HardDenial =>
          ScheduleFinalization(config.say.safetyPrompt, config.say.safetyFallback);
        case OverQuota =>
          ScheduleFinalization(config.say.quotaPrompt, config.say.quotaFallback);
        case Fine =>
          control := control.(budget := control.budget - 1);
          if control.budget <= 0 {
            Append(Note(Assistant, config.say.limitNotice));
            End(Completed);
          }
      }
    }

    method HandleReply(reply: Reply)
      requires Live(State())
      modifies this
      ensures State() == OnReply(config.say, old(State()), reply)
      ensures trace.requests == old(trace).requests
      ensures TurnBounds.Allowance(State()) + 1 <= TurnBounds.Allowance(old(State()))
          + (trace.steers - old(trace).steers)
    {
      TurnBounds.ReplyPays(config.say, State(), reply);
      var calls, suppressed := DeduplicateToolCalls(reply.calls);
      if closing.due {
        closing := closing.(due := false);
        var text := if reply.text != "" then Strip(reply.text) else closing.fallback;
        Append(Note(Assistant, text));
        End(Completed);
        return;
      }
      HandleOpenReply(calls, reply);
    }

    /** A reply to a request that is not closing. */
    method HandleOpenReply(calls: seq<Call>, reply: Reply)
      requires Live(State()) && !closing.due && calls == Deduplicate(reply.calls)
      modifies this
      ensures State() == OnReply(config.say, old(State()), reply)
    {
      var retry := control.retry;
      if reply.text == "" && calls == [] {
        HandleEmpty();
        return;
      }
      transientInstruction := "";
      if AnyCall(calls, Invalid) && retry.invalidTool < MAX_INVALID_TOOL {
        control := control.(retry := retry.(invalidTool := retry.invalidTool + 1), justExecutedTools := false);
        transientInstruction := config.say.invalidTool;
        return;
      }
      if calls == [] {
        HandleAnswer(reply);
        return;
      }
      HandleCalls(calls, reply);
    }

    method HandleCalls(calls: seq<Call>, reply: Reply)
      requires Live(State()) && !closing.due
      modifies this
      ensures State() == OnCalls(config.say, old(State()), calls, reply)
    {
      var successes := successfulToolCalls;
      if AnyCall(calls, (c: Call) => AtLimit(successes, c)) {
        ScheduleFinalization(config.say.duplicatePrompt, config.say.toolResultFallback);
        return;
      }
      ExecuteCalls(calls, reply);
      HandleVerdict(VerdictOn(calls, reply.results));
    }

    method OnePass(e: Event)
      requires Live(State())
      modifies this
      ensures State() == Pass(config, old(State()), e)
      ensures TurnOutcomes.Answers(config, old(State()), e) ==>
        context.messages == TurnOutcomes.Steered(old(State()), e)
          + TurnOutcomes.Words(Assistant, Some(e.outcome.reply.text)) + TurnOutcomes.Words(User, e.outcome.reply.steer)
    {
      if TurnOutcomes.Answers(config, State(), e) {
        TurnOutcomes.AnswerIsRecorded(config, State(), e);
      }
      if e.interrupted {
        End(Stopped);
        return;
      }
      ConsumeSteer(e.steer);
      ghost var request := NextRequest(State());
      context := context.(skill := None);
      if e.overThreshold && |context.messages| != context.lastCompacted {
        var compacted := CompactActiveContext(e.midTurn);
        if compacted {
          return;
        }
      }
      trace := trace.(requests := trace.requests + [request]);
      match e.outcome {
        case Cancelled => End(Stopped);
        case Failed(error) => HandleFailure(error);
        case Replied(reply) => HandleReply(reply);
      }
    }

    /** The whole turn, against an environment in which the user steers a bounded number of
        times: the loop ends, in a state its passes reach, after at most
        B + 10 model calls plus one for each steering message. */
    method RunConversation(env: nat -> Event, ghost limit: nat) returns (ghost passes: nat)
      requires forall n :: Run(config, State(), Prefix(env, n)).trace.steers <= limit
      modifies this
      ensures State() == Run(config, old(State()), Prefix(env, passes))
      ensures !Live(State())
      ensures |trace.requests| <= |old(trace).requests| + TurnBounds.Allowance(old(State()))
          + (trace.steers - old(trace).steers)
    {
      passes := 0;
      var i := 0;
      ghost var s := State();
      assert Prefix(env, 0) == [];
      while control.status.Running? && control.budget > 0
        invariant passes == i
        invariant State() == Run(config, s, Prefix(env, i))
        decreases 2 * TurnBounds.Allowance(State()) + TurnBounds.Uncompacted(State()) + 2 * (limit - trace.steers)
      {
        TurnBounds.PassPays(config, State(), env(i));
        RunOneMore(config, s, env, i);
        OnePass(env(i));
        i := i + 1;
        passes := i;
        assert Run(config, s, Prefix(env, i)).trace.steers <= limit;
      }
      TurnBounds.RunPays(config, s, Prefix(env, i));
    }
  }

  function Prefix(env: nat -> Event, n: nat): seq<Event> {
    seq(n, (i: nat) => env(i))
  }

  lemma {:induction false} RunOneMore(c: Config, s: Turn, env: nat -> Event, n: nat)
    requires Live(Run(c, s, Prefix(env, n)))
    ensures Run(c, s, Prefix(env, n + 1)) == Pass(c, Run(c, s, Prefix(env, n)), env(n))
  {
    var t := Run(c, s, Prefix(env, n));
    assert Prefix(env, n + 1) == Prefix(env, n) + [env(n)];
    RunConcat(c, s, Prefix(env, n), [env(n)]);
    assert [env(n)][1..] == [];
    assert Run(c, t, [env(n)]) == Run(c, Pass(c, t, env(n)), []);
  }
}
