/** One turn of the agent: the state of the loop, and what one pass over its body does with
    whatever the model, the tools and the user send. */
module TurnLoop {
  import opened Options
  import opened Messages
  import opened Compaction
  import opened ToolCalls

  // ---- What the environment sends ---------------------------------------------------

  datatype ToolStatus = Success | ToolError | Denied | Timeout | Interrupted | Skipped

  datatype Reason = ApprovalRequired | SandboxBlocked | HardBlacklist | QuotaReached | OtherReason(code: string)

  datatype ToolOutcome = ToolOutcome(status: ToolStatus, authorization: bool, reason: Reason, content: string)

  /** A checkpoint the compressor produced: its summary, and the order in which it visited
      the recent tail. */
  datatype Checkpoint = Checkpoint(summary: string, order: seq<nat>)

  /** An exception of the model call, as the loop classifies it by its text. */
  datatype Error = Error(overflow: bool, image: bool, parse: bool, checkpoint: Option<Checkpoint>)

  /** A reply, with everything that happens in the rest of its pass: the outcome of each
      tool call by id, context added by tool hooks, the steering text waiting when the reply
      is final, and the continuation a stop hook asks for. */
  datatype Reply = Reply(text: string, calls: seq<RawCall>, results: string -> ToolOutcome,
                         contexts: seq<string>, steer: Option<string>, hook: Option<string>)

  datatype Outcome = Cancelled | Failed(error: Error) | Replied(reply: Reply)

  /** Everything one pass may see. */
  datatype Event = Event(interrupted: bool, steer: Option<string>, overThreshold: bool,
                         midTurn: Option<Checkpoint>, outcome: Outcome)

  // ---- State ------------------------------------------------------------------------

  const MAX_EMPTY_CONTENT := 2
  const MAX_INVALID_TOOL := 2
  const MAX_INVALID_JSON := 2
  const MAX_IDENTICAL_SUCCESSFUL_TOOL_CALLS := 3

  datatype Retry = Retry(emptyContent: nat, invalidTool: nat, invalidJson: nat, postToolEmpty: bool)

  datatype Status = Running | Stopped | Completed | Overflowed | Errored

  /** A model call: the history it was built from, the index of the message it treats as the
      current one, and what came with it. */
  datatype Request = Request(messages: seq<Message>, current: nat, offersTools: bool, finalization: string,
      transient: string, skill: Option<string>)

  /** What decides where the loop goes next. */
  datatype Control = Control(status: Status, budget: int, retry: Retry, justExecutedTools: bool,
                             stopHookActive: bool, overflowRetried: bool, imageTextOnly: bool)

  /** The tool-free closing request, once one is due. */
  datatype Closing = Closing(due: bool, instruction: string, fallback: string)

  /** What is stored of the session while the turn runs: the history the turn started from, or
      the last checkpoint made in it, which then contains part of the turn. */
  datatype Stored = Stored(history: seq<Message>, hasTurn: bool)

  /** The conversation and what is injected beside it. */
  datatype Chat = Chat(messages: seq<Message>, lastCompacted: int, userIndex: nat, contexts: seq<string>,
                       skill: Option<string>, stored: Stored)

  /** What has happened so far: model calls, tool executions and the rounds they came in,
      steering messages taken. */
  datatype Trace = Trace(requests: seq<Request>, executions: nat, rounds: nat, steers: nat)

  datatype Turn = Turn(control: Control, closing: Closing, transient: string, chat: Chat,
                       successes: map<Signature, nat>, trace: Trace)

  /** The index of the last message, which is the user's when a turn starts. */
  function BeforeLast(messages: seq<Message>): (k: nat)
    ensures k <= |messages|
  {
    if messages == [] then 0 else |messages| - 1
  }

  /** A turn as it enters the loop. */
  function Start(messages: seq<Message>, maxIterations: int, wasCompressed: bool, contexts: seq<string>,
        skill: Option<string>): Turn {
    Turn(Control(Running, maxIterations, Retry(0, 0, 0, false), false, false, false, false),
         Closing(false, "", ""), "",
         Chat(messages, if wasCompressed then |messages| else -1, BeforeLast(messages), contexts, skill,
              Stored(messages[..BeforeLast(messages)], false)),
         map[], Trace([], 0, 0, 0))
  }

  /** The loop takes another pass. */
  predicate Live(s: Turn) {
    s.control.status.Running? && s.control.budget > 0
  }

  // ---- Texts ------------------------------------------------------------------------

  /** The loop's fixed texts. Only whether an instruction is empty matters to its control. */
  datatype Wording = Wording(
    malformed: string, invalidTool: string, emptyReply: string, emptyFallback: string,
    imageNotice: string, imageRemoved: string, hookHeader: string,
    toolResultPrompt: string, toolResultFallback: string, duplicatePrompt: string,
    safetyPrompt: string, safetyFallback: string, quotaPrompt: string, quotaFallback: string,
    permissionNotice: string, limitNotice: string)
  {
    predicate Usable() {
      toolResultPrompt != "" && duplicatePrompt != "" && safetyPrompt != "" && quotaPrompt != ""
    }
  }

  datatype Config = Config(budgets: Budgets, say: Wording)

  // ---- Small steps ------------------------------------------------------------------

  function Note(role: Role, text: string): Message {
    Message(role, Blocks([Text(text)]))
  }

  function Append(s: Turn, ms: seq<Message>): Turn {
    s.(chat := s.chat.(messages := s.chat.messages + ms))
  }

  function Say(s: Turn, text: string): Turn {
    Append(s, [Note(Assistant, text)])
  }

  function Hear(s: Turn, text: string): Turn {
    Append(s, [Note(User, text)])
  }

  function End(s: Turn, status: Status): Turn {
    s.(control := s.control.(status := status))
  }

  function TakeSteer(s: Turn, steer: Option<string>): Turn {
    if steer.Some? then Hear(s, steer.value).(trace := s.trace.(steers := s.trace.steers + 1)) else s
  }

  function ToolsJustRan(s: Turn, just: bool): Turn {
    s.(control := s.control.(justExecutedTools := just))
  }

  /** The tool-free closing request becomes due. */
  function Finalize(s: Turn, instruction: string, fallback: string): Turn {
    ToolsJustRan(s.(closing := Closing(true, instruction, fallback)), false)
  }

  /** The same request again, with a transient instruction. */
  function Nudge(s: Turn, retry: Retry, instruction: string): Turn {
    s.(control := s.control.(retry := retry), transient := instruction)
  }

  /** What compaction yields: nothing when there is no checkpoint or too little history. */
  function Compact(b: Budgets, ms: seq<Message>, c: Option<Checkpoint>): Option<seq<Message>> {
    if c.Some? && |ms| > 1 && VisitsTail(b, ms, c.value.order)
    then Some(Replacement(b, ms, c.value.order, c.value.summary))
    else None
  }

  function Adopt(s: Turn, replacement: seq<Message>): Turn {
    s.(chat := s.chat.(messages := replacement, lastCompacted := |replacement|, userIndex := |replacement|,
                       stored := Stored(replacement, true)))
  }

  /** The skill text named by the user is injected once; building the messages of a pass
      consumes it, even when the pass then compacts instead of asking. */
  function ConsumeSkill(s: Turn): Turn {
    s.(chat := s.chat.(skill := None))
  }

  function NextRequest(s: Turn): Request {
    Request(s.chat.messages, s.chat.userIndex, !s.closing.due,
            if s.closing.due then s.closing.instruction else "", s.transient, s.chat.skill)
  }

  function Ask(s: Turn): Turn {
    ConsumeSkill(s.(trace := s.trace.(requests := s.trace.requests + [NextRequest(s)])))
  }

  // ---- Images -----------------------------------------------------------------------

  function WithoutImages(blocks: seq<Block>): seq<Block> {
    if blocks == [] then []
    else (if blocks[0].Image? then [] else [blocks[0]]) + WithoutImages(blocks[1..])
  }

  function StripImages(w: Wording, m: Message): Message {
    if m.content.Blocks? && |WithoutImages(m.content.blocks)| != |m.content.blocks| then
      var kept := WithoutImages(m.content.blocks);
      m.(content := Blocks(if kept == [] then [Text(w.imageRemoved)] else kept))
    else m
  }

  function StripAllImages(w: Wording, ms: seq<Message>): (r: seq<Message>)
    ensures |r| == |ms|
    ensures forall i :: 0 <= i < |ms| ==> r[i] == StripImages(w, ms[i])
  {
    seq(|ms|, i requires 0 <= i < |ms| => StripImages(w, ms[i]))
  }

  // ---- Tool rounds ------------------------------------------------------------------

  predicate AnyCall(calls: seq<Call>, p: Call -> bool) {
    calls != [] && (p(calls[0]) || AnyCall(calls[1..], p))
  }

  predicate AllCalls(calls: seq<Call>, p: Call -> bool) {
    calls == [] || (p(calls[0]) && AllCalls(calls[1..], p))
  }

  lemma {:induction false} AnyCallIff(calls: seq<Call>, p: Call -> bool)
    ensures AnyCall(calls, p) <==> exists i :: 0 <= i < |calls| && p(calls[i])
  {
    if calls != [] {
      AnyCallIff(calls[1..], p);
      if i :| 0 <= i < |calls| && p(calls[i]) {
        assert i > 0 ==> calls[1..][i - 1] == calls[i];
      }
    }
  }

  predicate Invalid(c: Call) {
    c.input == "" && c.name != ""
  }

  function Count(successes: map<Signature, nat>, sig: Signature): nat {
    if sig in successes then successes[sig] else 0
  }

  predicate AtLimit(successes: map<Signature, nat>, c: Call) {
    Count(successes, SignatureOf(c)) >= MAX_IDENTICAL_SUCCESSFUL_TOOL_CALLS
  }

  function UseBlocks(calls: seq<Call>): seq<Block> {
    if calls == [] then [] else [ToolUse(calls[0].id, calls[0].name, calls[0].input)] + UseBlocks(calls[1..])
  }

  function ResultBlocks(calls: seq<Call>, results: string -> ToolOutcome): seq<Block> {
    if calls == [] then []
    else [ToolResult(calls[0].id, results(calls[0].id).content)] + ResultBlocks(calls[1..], results)
  }

  function Round(text: string, calls: seq<Call>, results: string -> ToolOutcome): seq<Message> {
    [Message(Assistant, Blocks((if text != "" then [Text(text)] else []) + UseBlocks(calls))),
     Message(User, Blocks(ResultBlocks(calls, results)))]
  }

  function Succeeded(successes: map<Signature, nat>, sig: Signature): map<Signature, nat> {
    successes[sig := Count(successes, sig) + 1]
  }

  /** Counts the successful calls among the first n. */
  function Tally(successes: map<Signature, nat>, calls: seq<Call>, results: string -> ToolOutcome,
        n: nat): map<Signature, nat>
    requires n <= |calls|
  {
    if n == 0 then successes
    else
      var before, c := Tally(successes, calls, results, n - 1), calls[n - 1];
      if results(c.id).status.Success? then Succeeded(before, SignatureOf(c)) else before
  }

  predicate PermissionRequired(o: ToolOutcome) {
    o.status.Denied? && o.authorization && o.reason.ApprovalRequired?
  }

  predicate HardDenied(o: ToolOutcome) {
    o.status.Denied? && (o.reason.SandboxBlocked? || o.reason.HardBlacklist?)
  }

  predicate QuotaExceeded(o: ToolOutcome) {
    o.reason.QuotaReached?
  }

  datatype Verdict = NeedsPermission | HardDenial | OverQuota | Fine

  /** How the outcomes of a tool round send the turn on. */
  function VerdictOn(calls: seq<Call>, results: string -> ToolOutcome): Verdict {
    if calls != [] && AllCalls(calls, (c: Call) => PermissionRequired(results(c.id))) then NeedsPermission
    else if AnyCall(calls, (c: Call) => HardDenied(results(c.id))) then HardDenial
    else if AnyCall(calls, (c: Call) => QuotaExceeded(results(c.id))) then OverQuota
    else Fine
  }

  /** After the tools ran: stop for authorization, close without tools, or spend one
      iteration. */
  function AfterTools(w: Wording, s: Turn, verdict: Verdict): Turn {
    match verdict
    case NeedsPermission => End(Say(s, w.permissionNotice), Completed)
    case HardDenial => Finalize(s, w.safetyPrompt, w.safetyFallback)
    case OverQuota => Finalize(s, w.quotaPrompt, w.quotaFallback)
    case Fine =>
      var t := s.(control := s.control.(budget := s.control.budget - 1));
      if t.control.budget <= 0 then End(Say(t, w.limitNotice), Completed) else t
  }

  /** The tools run: their round joins the history and successes are counted. */
  function Execute(s: Turn, calls: seq<Call>, reply: Reply): Turn {
    var t := ToolsJustRan(Append(s, Round(reply.text, calls, reply.results)), true);
    t.(chat := t.chat.(contexts := t.chat.contexts + reply.contexts),
       successes := Tally(t.successes, calls, reply.results, |calls|),
       trace := t.trace.(executions := t.trace.executions + |calls|, rounds := t.trace.rounds + 1))
  }

  function OnCalls(w: Wording, s: Turn, calls: seq<Call>, reply: Reply): Turn {
    if AnyCall(calls, (c: Call) => AtLimit(s.successes, c)) then Finalize(s, w.duplicatePrompt, w.toolResultFallback)
    else AfterTools(w, Execute(s, calls, reply), VerdictOn(calls, reply.results))
  }

  // ---- Replies and failures ---------------------------------------------------------

  function OnAnswer(w: Wording, s: Turn, reply: Reply): Turn {
    var t := Say(s, reply.text);
    if reply.steer.Some? then ToolsJustRan(TakeSteer(t, reply.steer), false)
    else if !t.control.stopHookActive && reply.hook.Some? then
      t.(chat := t.chat.(contexts := t.chat.contexts + [w.hookHeader + reply.hook.value]),
         control := t.control.(stopHookActive := true, justExecutedTools := false))
    else End(t, Completed)
  }

  function OnEmpty(w: Wording, s: Turn): Turn {
    var retry := s.control.retry;
    if s.control.justExecutedTools && !retry.postToolEmpty then
      Finalize(Nudge(s, retry.(postToolEmpty := true), s.transient), w.toolResultPrompt, w.toolResultFallback)
    else if retry.emptyContent < MAX_EMPTY_CONTENT then
      ToolsJustRan(Nudge(s, retry.(emptyContent := retry.emptyContent + 1), w.emptyReply), false)
    else End(Say(s, w.emptyFallback), Completed)
  }

  function Close(s: Turn, reply: Reply): Turn {
    var text := if reply.text != "" then Strip(reply.text) else s.closing.fallback;
    End(Say(s.(closing := s.closing.(due := false)), text), Completed)
  }

  function OnReply(w: Wording, s: Turn, reply: Reply): Turn {
    var calls, retry := Deduplicate(reply.calls), s.control.retry;
    if s.closing.due then Close(s, reply)
    else if reply.text == "" && calls == [] then OnEmpty(w, s)
    else
      var t := s.(transient := "");
      if AnyCall(calls, Invalid) && retry.invalidTool < MAX_INVALID_TOOL then
        ToolsJustRan(Nudge(t, retry.(invalidTool := retry.invalidTool + 1), w.invalidTool), false)
      else if calls == [] then OnAnswer(w, t, reply)
      else OnCalls(w, t, calls, reply)
  }

  function OnFailure(c: Config, s: Turn, e: Error): Turn {
    var w, retry, ms := c.say, s.control.retry, s.chat.messages;
    if e.overflow && !s.control.overflowRetried then
      var t, made := s.(control := s.control.(overflowRetried := true)), Compact(c.budgets, ms, e.checkpoint);
      if made.Some? then Adopt(t, made.value) else End(t, Overflowed)
    else if s.closing.due then End(Say(s, s.closing.fallback), Completed)
    else if e.image && !s.control.imageTextOnly && StripAllImages(w, ms) != ms then
      Hear(s.(chat := s.chat.(messages := StripAllImages(w, ms)), control := s.control.(imageTextOnly := true)),
          w.imageNotice)
    else if e.parse && retry.invalidJson < MAX_INVALID_JSON then
      Nudge(s, retry.(invalidJson := retry.invalidJson + 1), w.malformed)
    else End(s, Errored)
  }

  // ---- One pass and a run -----------------------------------------------------------

  /** The pass compacts instead of asking the model. */
  predicate CompactsFirst(c: Config, s: Turn, e: Event) {
    e.overThreshold && |s.chat.messages| != s.chat.lastCompacted && Compact(c.budgets, s.chat.messages, e.midTurn).Some?
  }

  /** The pass asks the model and gets a reply. */
  predicate Hears(c: Config, s: Turn, e: Event) {
    !e.interrupted && !CompactsFirst(c, TakeSteer(s, e.steer), e) && e.outcome.Replied?
  }

  function OnOutcome(c: Config, s: Turn, o: Outcome): Turn {
    match o
    case Cancelled => End(s, Stopped)
    case Failed(error) => OnFailure(c, s, error)
    case Replied(reply) => OnReply(c.say, s, reply)
  }

  function Pass(c: Config, s: Turn, e: Event): Turn {
    if e.interrupted then End(s, Stopped)
    else
      var t := TakeSteer(s, e.steer);
      if CompactsFirst(c, t, e) then Adopt(ConsumeSkill(t), Compact(c.budgets, t.chat.messages, e.midTurn).value)
      else OnOutcome(c, Ask(t), e.outcome)
  }

  /** The loop over a finite prefix of what the environment sends. */
  function Run(c: Config, s: Turn, events: seq<Event>): Turn
    decreases |events|
  {
    if events == [] || !Live(s) then s else Run(c, Pass(c, s, events[0]), events[1..])
  }

  lemma {:induction false} RunConcat(c: Config, s: Turn, a: seq<Event>, more: seq<Event>)
    ensures Run(c, s, a + more) == Run(c, Run(c, s, a), more)
    decreases |a|
  {
    if a == [] {
      assert a + more == more;
    } else if Live(s) {
      assert (a + more)[0] == a[0] && (a + more)[1..] == a[1..] + more;
      RunConcat(c, Pass(c, s, a[0]), a[1..], more);
    }
  }
}
