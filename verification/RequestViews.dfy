/** The two views of one model call: the flat message list it is measured by, and the
    sectioned plan that transports send. Both leave out the retry instructions that earlier
    versions used to store in the history; the plan never leaves out the current message. */
module RequestViews {
  import opened Options
  import opened Messages
  import opened TurnLoop
  import opened History
  import opened ToolCalls
  import opened Selection
  import opened Compaction
  import TurnClosing
  import TurnSafety

  // ---- Retry artefacts --------------------------------------------------------------

  datatype Kind = Artefact | Continue | Ordinary

  const SUMMARISE_REQUEST :=
      "You just executed tools but gave no response. Please provide a summary of what was done and the results."
  const MALFORMED_PREFIX := "Your previous response was malformed."
  const INVALID_JSON_PREFIX := "Your previous tool call(s) had invalid JSON arguments:"
  const CONTINUE_REQUEST := "请继续。"

  function KindOf(m: Message): Kind {
    var text := Strip(MessageText(m));
    if text == SUMMARISE_REQUEST || MALFORMED_PREFIX <= text || INVALID_JSON_PREFIX <= text then Artefact
    else if text == CONTINUE_REQUEST && m.role.User? then Continue
    else Ordinary
  }

  /** An artefact goes, and so do the first two continue requests right after one. */
  predicate Dropped(k: Kind, skip: nat) {
    k.Artefact? || (k.Continue? && skip > 0)
  }

  function SkipAfter(k: Kind, skip: nat): nat {
    if k.Artefact? then 2 else if k.Continue? && skip > 0 then skip - 1 else 0
  }

  function StripFrom(kind: Message -> Kind, ms: seq<Message>, skip: nat): seq<Message> {
    if ms == [] then []
    else
      var k := kind(ms[0]);
      (if Dropped(k, skip) then [] else [ms[0]]) + StripFrom(kind, ms[1..], SkipAfter(k, skip))
  }

  /** An artefact takes the next two continue requests with it, and no more; on its own a continue
      request stays. */
  lemma {:induction false} ArtefactTakesTwo(kind: Message -> Kind, ms: seq<Message>)
    requires |ms| == 4 && kind(ms[0]).Artefact? && forall i | 1 <= i < 4 :: kind(ms[i]).Continue?
    ensures StripFrom(kind, ms, 0) == [ms[3]]
    ensures StripFrom(kind, ms[1..], 0) == ms[1..]
  {
    assert ms[1..][1..] == ms[2..] && ms[2..][1..] == ms[3..] && ms[3..][1..] == [];
    assert StripFrom(kind, ms[3..], 0) == [ms[3]] + StripFrom(kind, [], 0);
    assert StripFrom(kind, ms[2..], 1) == [] + StripFrom(kind, ms[3..], 0);
    assert StripFrom(kind, ms[1..], 2) == [] + StripFrom(kind, ms[2..], 1);
    assert StripFrom(kind, ms[2..], 0) == [ms[2]] + StripFrom(kind, ms[3..], 0) == ms[2..];
    assert StripFrom(kind, ms[1..], 0) == [ms[1]] + StripFrom(kind, ms[2..], 0) == ms[1..];
  }

  /** How many continue requests may still be skipped after these messages. */
  function SkipLeft(kind: Message -> Kind, ms: seq<Message>, skip: nat): nat {
    if ms == [] then skip else SkipLeft(kind, ms[1..], SkipAfter(kind(ms[0]), skip))
  }

  lemma {:induction false} Associates<T>(a: seq<T>, b: seq<T>, c: seq<T>)
    ensures a + b + c == a + (b + c)
  {
  }

  lemma {:induction false} StripSplits(kind: Message -> Kind, a: seq<Message>, b: seq<Message>, skip: nat)
    ensures StripFrom(kind, a + b, skip) == StripFrom(kind, a, skip) + StripFrom(kind, b, SkipLeft(kind, a, skip))
    ensures SkipLeft(kind, a + b, skip) == SkipLeft(kind, b, SkipLeft(kind, a, skip))
  {
    if a == [] {
      assert a + b == b;
    } else {
      var next := SkipAfter(kind(a[0]), skip);
      StripSplits(kind, a[1..], b, next);
      assert (a + b)[0] == a[0] && (a + b)[1..] == a[1..] + b;
      var head := if Dropped(kind(a[0]), skip) then [] else [a[0]];
      Associates(head, StripFrom(kind, a[1..], next), StripFrom(kind, b, SkipLeft(kind, a[1..], next)));
    }
  }

  lemma {:induction false} StripStep(kind: Message -> Kind, ms: seq<Message>, i: nat, skip: nat)
    requires i < |ms|
    ensures var k := kind(ms[i]);
      StripFrom(kind, ms[i..], skip)
          == (if Dropped(k, skip) then [] else [ms[i]]) + StripFrom(kind, ms[i + 1..], SkipAfter(k, skip))
  {
    assert ms[i..][0] == ms[i] && ms[i..][1..] == ms[i + 1..];
  }

  method StripLegacyRetryMessages(kind: Message -> Kind, messages: seq<Message>) returns (result: seq<Message>)
    ensures result == StripFrom(kind, messages, 0)
  {
    result := [];
    var skipContinue, i := 0, 0;
    while i < |messages|
      invariant 0 <= i <= |messages| && 0 <= skipContinue
      invariant StripFrom(kind, messages, 0) == result + StripFrom(kind, messages[i..], skipContinue)
    {
      var k := kind(messages[i]);
      ghost var before := result;
      StripStep(kind, messages, i, skipContinue);
      Associates(before, if Dropped(k, skipContinue) then [] else [messages[i]],
          StripFrom(kind, messages[i + 1..], SkipAfter(k, skipContinue)));
      if k.Artefact? {
        skipContinue := 2;
        assert result == before + [];
      } else if skipContinue > 0 && k.Continue? {
        skipContinue := skipContinue - 1;
        assert result == before + [];
      } else {
        skipContinue := 0;
        result := result + [messages[i]];
      }
      i := i + 1;
    }
    assert messages[i..] == [];
  }

  /** A larger allowance never keeps more. */
  lemma {:induction false} SkipKeepsFewer(kind: Message -> Kind, ms: seq<Message>, skip: nat)
    ensures |StripFrom(kind, ms, skip)| <= |StripFrom(kind, ms, 0)|
  {
    if ms != [] {
      SkipKeepsFewer(kind, ms[1..], SkipAfter(kind(ms[0]), skip));
    }
  }

  /** The message at this place is no artefact and is not skipped because of one. */
  predicate Survives(kind: Message -> Kind, ms: seq<Message>, at: nat)
    requires at < |ms|
  {
    !Dropped(kind(ms[at]), SkipLeft(kind, ms[..at], 0))
  }

  /** Stripping the two sides of a message separately gives what stripping the whole gives,
      exactly when the message itself survives; otherwise it gives more. */
  lemma {:induction false} StripDistributesIff(kind: Message -> Kind, ms: seq<Message>, at: nat)
    requires at < |ms|
    ensures var cut := StripFrom(kind, ms[..at], 0) + [ms[at]] + StripFrom(kind, ms[at + 1..], 0);
      var whole := StripFrom(kind, ms, 0);
      if Survives(kind, ms, at) then cut == whole else |cut| > |whole|
  {
    var skip := SkipLeft(kind, ms[..at], 0);
    var k := kind(ms[at]);
    assert ms == ms[..at] + ms[at..];
    StripSplits(kind, ms[..at], ms[at..], 0);
    assert ms[at..][0] == ms[at] && ms[at..][1..] == ms[at + 1..];
    assert StripFrom(kind, ms[at..], skip)
        == (if Dropped(k, skip) then [] else [ms[at]]) + StripFrom(kind, ms[at + 1..], SkipAfter(k, skip));
    SkipKeepsFewer(kind, ms[at + 1..], SkipAfter(k, skip));
  }

  // ---- The two views ----------------------------------------------------------------

  /** What is injected around the history and never stored in it. Empty texts are absent. */
  datatype Injections = Injections(memory: seq<Message>, skill: string, summaries: string, hooks: seq<string>,
      intent: string)

  datatype Plan = Plan(dynamic: seq<Message>, history: seq<Message>, current: Option<Message>, tail: seq<Message>)
  {
    function Flatten(): seq<Message> {
      dynamic + history + (if current.Some? then [current.value] else []) + tail
    }
  }

  /** A note, unless its text is empty. */
  function Notes(text: string): seq<Message> {
    if text != "" then [Note(User, text)] else []
  }

  function AllNotes(texts: seq<string>): (r: seq<Message>)
    ensures |r| == |texts|
    ensures forall i :: 0 <= i < |texts| ==> r[i] == Note(User, texts[i])
  {
    seq(|texts|, i requires 0 <= i < |texts| => Note(User, texts[i]))
  }

  function Before(inj: Injections): seq<Message> {
    inj.memory + Notes(inj.skill) + Notes(inj.summaries)
  }

  function ApiView(kind: Message -> Kind, ms: seq<Message>, inj: Injections, finalization: string,
        transient: string): seq<Message> {
    Before(inj) + StripFrom(kind, ms, 0) + AllNotes(inj.hooks) + Notes(transient) + Notes(finalization)
  }

  function PlanView(kind: Message -> Kind, ms: seq<Message>, at: nat, inj: Injections, finalization: string,
        transient: string): Plan {
    var closing := AllNotes(inj.hooks) + Notes(Strip(inj.intent)) + Notes(finalization) + Notes(transient);
    if at < |ms|
    then Plan(Before(inj), StripFrom(kind, ms[..at], 0), Some(ms[at]), StripFrom(kind, ms[at + 1..], 0) + closing)
    else Plan(Before(inj), StripFrom(kind, ms, 0), None, closing)
  }

  method AppendNotes(messages: seq<Message>, texts: seq<string>) returns (result: seq<Message>)
    ensures result == messages + AllNotes(texts)
  {
    result := messages;
    var i := 0;
    while i < |texts|
      invariant 0 <= i <= |texts|
      invariant result == messages + AllNotes(texts)[..i]
    {
      result := result + [Note(User, texts[i])];
      i := i + 1;
    }
  }

  method AppendNote(messages: seq<Message>, text: string) returns (result: seq<Message>)
    ensures result == messages + Notes(text)
  {
    result := messages;
    if text != "" {
      result := result + [Note(User, text)];
    }
  }

  /** Inserts at the front, last part first. */
  method InsertBefore(messages: seq<Message>, inj: Injections) returns (result: seq<Message>)
    ensures result == Before(inj) + messages
  {
    result := messages;
    if inj.summaries != "" {
      result := [Note(User, inj.summaries)] + result;
    }
    assert result == Notes(inj.summaries) + messages;
    if inj.skill != "" {
      result := [Note(User, inj.skill)] + result;
    }
    assert result == Notes(inj.skill) + (Notes(inj.summaries) + messages);
    ghost var notes := result;
    var i := |inj.memory|;
    while i > 0
      invariant 0 <= i <= |inj.memory|
      invariant result == inj.memory[i..] + notes
    {
      i := i - 1;
      result := [inj.memory[i]] + result;
    }
    assert result == inj.memory + notes;
    Associates(Notes(inj.skill), Notes(inj.summaries), messages);
    Associates(inj.memory, Notes(inj.skill), Notes(inj.summaries));
    Associates(inj.memory, Notes(inj.skill) + Notes(inj.summaries), messages);
  }

  method BuildApiMessages(messages: seq<Message>, inj: Injections, forced: bool, finalization: string,
        transient: string) returns (api: seq<Message>)
    requires forced <==> finalization != ""
    ensures api == ApiView(KindOf, messages, inj, finalization, transient)
  {
    var kept := StripLegacyRetryMessages(KindOf, messages);
    api := InsertBefore(kept, inj);
    api := AppendNotes(api, inj.hooks);
    api := AppendNote(api, transient);
    if forced {
      api := AppendNote(api, finalization);
    } else {
      assert api + Notes(finalization) == api;
    }
  }

  method BuildRequestPlan(messages: seq<Message>, at: nat, inj: Injections, finalization: string, transient: string)
      returns (plan: Plan)
    ensures plan == PlanView(KindOf, messages, at, inj, finalization, transient)
  {
    var dynamic := AppendNote(inj.memory, inj.skill);
    dynamic := AppendNote(dynamic, inj.summaries);
    var current := if at < |messages| then Some(messages[at]) else None;
    var history := StripLegacyRetryMessages(KindOf, if current.Some? then messages[..at] else messages);
    var rest := StripLegacyRetryMessages(KindOf, if current.Some? then messages[at + 1..] else []);
    var tail := AppendNotes(rest, inj.hooks);
    var intent := Strip(inj.intent);
    tail := AppendNote(tail, intent);
    tail := AppendNote(tail, finalization);
    tail := AppendNote(tail, transient);
    Associates(rest, AllNotes(inj.hooks), Notes(intent));
    Associates(rest, AllNotes(inj.hooks) + Notes(intent), Notes(finalization));
    Associates(rest, AllNotes(inj.hooks) + Notes(intent) + Notes(finalization), Notes(transient));
    plan := Plan(dynamic, history, current, tail);
  }

  /** The current message, when there is one, is not stripped from the flat view. */
  predicate CurrentSurvives(kind: Message -> Kind, ms: seq<Message>, at: nat) {
    at < |ms| ==> Survives(kind, ms, at)
  }

  lemma {:induction false} NotesCommuteIff(f: string, t: string)
    ensures Notes(f) + Notes(t) == Notes(t) + Notes(f) <==> f == "" || t == "" || f == t
  {
    if f != "" && t != "" {
      assert (Notes(f) + Notes(t))[0] == Note(User, f) && (Notes(t) + Notes(f))[0] == Note(User, t);
      assert Note(User, f).content.blocks[0] == Text(f) && Note(User, t).content.blocks[0] == Text(t);
    } else if f == "" {
      assert Notes(f) + Notes(t) == Notes(t) == Notes(t) + Notes(f);
    } else {
      assert Notes(f) + Notes(t) == Notes(f) == Notes(t) + Notes(f);
    }
  }

  lemma {:induction false} CancelBoth<T>(a: seq<T>, x: seq<T>, y: seq<T>)
    ensures a + x == a + y <==> x == y
  {
    if a + x == a + y {
      assert x == (a + x)[|a|..] && y == (a + y)[|a|..];
    }
  }

  lemma {:induction false} PartsAgreeIff<T>(before: seq<T>, cut: seq<T>, whole: seq<T>, hooks: seq<T>, intent: seq<T>,
        f: seq<T>, t: seq<T>)
    requires |cut| > |whole| || cut == whole
    ensures before + cut + (hooks + intent + f + t) == before + whole + hooks + t + f
       <==> cut == whole && intent == [] && f + t == t + f
  {
    var flat, api := before + cut + (hooks + intent + f + t), before + whole + hooks + t + f;
    assert |flat| - |api| == |cut| - |whole| + |intent|;
    if cut == whole && intent == [] {
      var head := before + whole + hooks;
      assert flat == head + (f + t) by {
        assert hooks + intent == hooks;
        Associates(hooks, f, t);
        Associates(before + whole, hooks, f + t);
      }
      Associates(head, t, f);
      CancelBoth(head, f + t, t + f);
    }
  }

  /** The two views send the same messages in the same order, except in three cases: an
      active intent is only in the plan, a current message that is itself stripped is only in
      the plan, and two different instructions come in opposite orders. */
  lemma {:induction false} ViewsAgreeIff(kind: Message -> Kind, ms: seq<Message>, at: nat, inj: Injections,
        finalization: string, transient: string)
    ensures PlanView(kind, ms, at, inj, finalization, transient).Flatten()
        == ApiView(kind, ms, inj, finalization, transient)
       <==> Strip(inj.intent) == ""
            && CurrentSurvives(kind, ms, at)
            && (finalization == "" || transient == "" || finalization == transient)
  {
    var before, hooks, intent := Before(inj), AllNotes(inj.hooks), Notes(Strip(inj.intent));
    var f, t := Notes(finalization), Notes(transient);
    var whole := StripFrom(kind, ms, 0);
    var closing := hooks + intent + f + t;
    NotesCommuteIff(finalization, transient);
    if at < |ms| {
      StripDistributesIff(kind, ms, at);
      var pre, cur, post := StripFrom(kind, ms[..at], 0), [ms[at]], StripFrom(kind, ms[at + 1..], 0);
      PartsAgreeIff(before, pre + cur + post, whole, hooks, intent, f, t);
      Associates(before, pre, cur);
      Associates(before, pre + cur, post);
      Associates(before + pre + cur, post, closing);
    } else {
      PartsAgreeIff(before, whole, whole, hooks, intent, f, t);
      assert before + whole + [] == before + whole;
    }
  }

  /** Along every run, the views of the next model call agree under the same conditions: the
      flat view adds the closing instruction because closing is due, the plan because it is
      not empty, and these never differ. */
  lemma {:induction false} ViewsAgreeAlongRuns(c: Config, start: Turn, events: seq<Event>, steer: Option<string>,
        inj: Injections)
    requires c.say.Usable() && TurnClosing.InstructionMatches(start) && Live(Run(c, start, events))
    ensures var s := TakeSteer(Run(c, start, events), steer);
      var sent := NextRequest(s);
      && (PlanView(KindOf, s.chat.messages, s.chat.userIndex, inj, s.closing.instruction, s.transient).Flatten()
            == ApiView(KindOf, s.chat.messages, inj, sent.finalization, sent.transient)
          <==> Strip(inj.intent) == ""
               && CurrentSurvives(KindOf, s.chat.messages, s.chat.userIndex)
               && (sent.offersTools || s.transient == "" || sent.finalization == s.transient))
  {
    var s := TakeSteer(Run(c, start, events), steer);
    TurnClosing.InstructionAlwaysMatches(c, start, events);
    ViewsAgreeIff(KindOf, s.chat.messages, s.chat.userIndex, inj, s.closing.instruction, s.transient);
  }

  /** Everything sent ends with the instruction that came last: the plan with the nudge, when there
      is one, and else with the closing instruction; the flat view the other way round. */
  lemma {:induction false} InstructionsComeLast(kind: Message -> Kind, ms: seq<Message>, at: nat, inj: Injections,
        finalization: string, transient: string)
    ensures var plan := PlanView(kind, ms, at, inj, finalization, transient).Flatten();
      && (transient != "" ==> plan != [] && plan[|plan| - 1] == Message(User, Blocks([Text(transient)])))
      && (transient == "" && finalization != "" ==>
           plan != [] && plan[|plan| - 1] == Message(User, Blocks([Text(finalization)])))
    ensures var flat := ApiView(kind, ms, inj, finalization, transient);
      && (finalization != "" ==> flat != [] && flat[|flat| - 1] == Message(User, Blocks([Text(finalization)])))
      && (finalization == "" && transient != "" ==>
           flat != [] && flat[|flat| - 1] == Message(User, Blocks([Text(transient)])))
  {
  }

  function Saying(text: string): seq<Message> {
    if text == "" then [] else [Message(User, Blocks([Text(text)]))]
  }

  /** Both views begin with the memory, the skill text and the summaries, in this order. */
  lemma {:induction false} InjectionsComeFirst(kind: Message -> Kind, ms: seq<Message>, at: nat, inj: Injections,
        finalization: string, transient: string)
    ensures var first := inj.memory + Saying(inj.skill) + Saying(inj.summaries);
      && first <= PlanView(kind, ms, at, inj, finalization, transient).Flatten()
      && first <= ApiView(kind, ms, inj, finalization, transient)
  {
  }

  // ---- Stripping and tool rounds ----------------------------------------------------

  /** Each message answers the calls of the one before it, from these open calls on. */
  predicate Chains(shape: Message -> Shape, open: seq<string>, ms: seq<Message>)
    decreases |ms|
  {
    ms == [] || (shape(ms[0]).answers == open && Chains(shape, shape(ms[0]).uses, ms[1..]))
  }

  function OpenAfter(shape: Message -> Shape, open: seq<string>, ms: seq<Message>): seq<string>
    decreases |ms|
  {
    if ms == [] then open else OpenAfter(shape, shape(ms[0]).uses, ms[1..])
  }

  /** And no call is left open. */
  predicate AnswersFrom(shape: Message -> Shape, open: seq<string>, ms: seq<Message>) {
    Chains(shape, open, ms) && OpenAfter(shape, open, ms) == []
  }

  lemma {:induction false} ChainsConcat(shape: Message -> Shape, open: seq<string>, a: seq<Message>, b: seq<Message>)
    ensures Chains(shape, open, a + b) <==> Chains(shape, open, a) && Chains(shape, OpenAfter(shape, open, a), b)
    ensures OpenAfter(shape, open, a + b) == OpenAfter(shape, OpenAfter(shape, open, a), b)
    decreases |a|
  {
    if a == [] {
      assert a + b == b;
    } else {
      ChainsConcat(shape, shape(a[0]).uses, a[1..], b);
      assert (a + b)[0] == a[0] && (a + b)[1..] == a[1..] + b;
    }
  }

  /** Results carry no text of their own, and calls are not sent by the user. */
  predicate RoundsAreTyped(kind: Message -> Kind, shape: Message -> Shape, ms: seq<Message>) {
    forall m | m in ms ::
      && (shape(m).answers != [] ==> kind(m).Ordinary?)
      && (shape(m).uses != [] ==> !kind(m).Continue? && shape(m).answers == [])
  }

  /** A message that carries calls and happens to read like an old retry instruction. */
  predicate ReadsAsArtefact(kind: Message -> Kind, shape: Message -> Shape, m: Message) {
    shape(m).uses != [] && kind(m).Artefact?
  }

  /** Stripping keeps the chain, and what it leaves open, exactly when no calling message
      reads like an artefact. */
  lemma {:induction false} StripChainsIff(kind: Message -> Kind, shape: Message -> Shape, open: seq<string>,
        ms: seq<Message>, skip: nat)
    requires Chains(shape, open, ms) && RoundsAreTyped(kind, shape, ms)
    ensures var kept := StripFrom(kind, ms, skip);
      (Chains(shape, open, kept) && OpenAfter(shape, open, kept) == OpenAfter(shape, open, ms))
        <==> (forall m | m in ms :: !ReadsAsArtefact(kind, shape, m))
    decreases |ms|
  {
    if ms != [] {
      var m, rest := ms[0], ms[1..];
      var next, uses := SkipAfter(kind(m), skip), shape(m).uses;
      var kept := StripFrom(kind, rest, next);
      assert m in ms && (forall x | x in rest :: x in ms) && (forall x | x in ms :: x == m || x in rest);
      StripChainsIff(kind, shape, uses, rest, next);
      assert StripFrom(kind, ms, skip) == if Dropped(kind(m), skip) then kept else [m] + kept;
      if !Dropped(kind(m), skip) {
        assert ([m] + kept)[0] == m && ([m] + kept)[1..] == kept;
      } else if uses != [] && rest != [] {
        assert rest[0] in ms;
        assert kept == [rest[0]] + StripFrom(kind, rest[1..], 0);
        assert kept[0] == rest[0];
      }
    }
  }

  /** The history as the plan sends it: stripped on both sides of the current message. */
  function SentHistory(kind: Message -> Kind, ms: seq<Message>, at: nat): seq<Message> {
    if at < |ms| then StripFrom(kind, ms[..at], 0) + [ms[at]] + StripFrom(kind, ms[at + 1..], 0)
        else StripFrom(kind, ms, 0)
  }

  /** A calling message other than the current one reads like an artefact. */
  predicate LosesCalls(kind: Message -> Kind, shape: Message -> Shape, ms: seq<Message>, at: nat) {
    exists i :: 0 <= i < |ms| && i != at && ReadsAsArtefact(kind, shape, ms[i])
  }

  /** Stripping looks at text alone, so it also drops an assistant message that carries tool
      calls and reads like an old retry instruction, and leaves its results behind. The plan
      of a paired history is paired exactly when no calling message reads like one, the
      current message aside, which is never stripped. */
  lemma {:induction false} SentIsPairedIff(kind: Message -> Kind, shape: Message -> Shape, ms: seq<Message>, at: nat)
    requires AnswersFrom(shape, [], ms) && RoundsAreTyped(kind, shape, ms)
    ensures AnswersFrom(shape, [], SentHistory(kind, ms, at)) <==> !LosesCalls(kind, shape, ms, at)
  {
    if at < |ms| {
      var pre, cur, post := ms[..at], ms[at], ms[at + 1..];
      assert ms == pre + ([cur] + post);
      ChainsConcat(shape, [], pre, [cur] + post);
      assert ([cur] + post)[0] == cur && ([cur] + post)[1..] == post;
      StripChainsIff(kind, shape, [], pre, 0);
      StripChainsIff(kind, shape, shape(cur).uses, post, 0);
      var a, b := StripFrom(kind, pre, 0), StripFrom(kind, post, 0);
      ChainsConcat(shape, [], a, [cur] + b);
      assert ([cur] + b)[0] == cur && ([cur] + b)[1..] == b;
      assert a + [cur] + b == a + ([cur] + b);
      SidesLoseCalls(kind, shape, ms, at);
    } else {
      StripChainsIff(kind, shape, [], ms, 0);
    }
  }

  lemma {:induction false} SidesLoseCalls(kind: Message -> Kind, shape: Message -> Shape, ms: seq<Message>, at: nat)
    requires at < |ms|
    ensures LosesCalls(kind, shape, ms, at)
       <==>
         || (exists m | m in ms[..at] :: ReadsAsArtefact(kind, shape, m))
         || (exists m | m in ms[at + 1..] :: ReadsAsArtefact(kind, shape, m))
  {
    if i :| 0 <= i < |ms| && i != at && ReadsAsArtefact(kind, shape, ms[i]) {
      assert if i < at then ms[..at][i] == ms[i] else ms[at + 1..][i - at - 1] == ms[i];
    }
  }

  lemma {:induction false} PlainAround(shape: Message -> Shape, a: seq<Message>, ms: seq<Message>, b: seq<Message>)
    requires forall m | m in a + b :: shape(m).uses == [] && shape(m).answers == []
    ensures AnswersFrom(shape, [], a + ms + b) <==> AnswersFrom(shape, [], ms)
  {
    assert forall m | m in a :: m in a + b;
    assert forall m | m in b :: m in a + b;
    PlainChains(shape, a);
    ChainsConcat(shape, [], a, ms);
    ChainsConcat(shape, [], a + ms, b);
    var open := OpenAfter(shape, [], a + ms);
    if open == [] {
      PlainChains(shape, b);
    }
  }

  lemma {:induction false} PlainChains(shape: Message -> Shape, ms: seq<Message>)
    requires forall m | m in ms :: shape(m).uses == [] && shape(m).answers == []
    ensures Chains(shape, [], ms) && OpenAfter(shape, [], ms) == []
  {
    if ms != [] {
      assert ms[0] in ms && forall m | m in ms[1..] :: m in ms;
      PlainChains(shape, ms[1..]);
    }
  }

  // ---- What is sent along runs ------------------------------------------------------

  lemma {:induction false} NoteIsSilent(role: Role, text: string)
    ensures Silent(Note(role, text))
  {
    TurnSafety.NoteIsPlain(role, text);
    assert ShapeOf(Note(role, text)).answers == ResIds(Note(role, text));
  }

  lemma {:induction false} TextWithoutImages(blocks: seq<Block>)
    ensures TextOf(WithoutImages(blocks)) == TextOf(blocks)
  {
    if blocks != [] {
      TextWithoutImages(blocks[1..]);
      var kept := WithoutImages(blocks[1..]);
      if blocks[0].Image? {
        assert WithoutImages(blocks) == [] + kept == kept;
      } else {
        assert ([blocks[0]] + kept)[0] == blocks[0] && ([blocks[0]] + kept)[1..] == kept;
      }
    }
  }

  lemma {:induction false} StripIsSilent(w: Wording, m: Message)
    requires Silent(m)
    ensures Silent(StripImages(w, m))
  {
    TurnSafety.StripKeepsShape(w, m);
    assert ShapeOf(m).answers == ResIds(m) && ShapeOf(StripImages(w, m)).answers == ResIds(StripImages(w, m));
    if m.content.Blocks? && ResIds(m) != [] {
      TextWithoutImages(m.content.blocks);
      TurnSafety.ImagesHaveNoTools(m.content.blocks);
    }
  }

  lemma {:induction false} AllSilentIsRobust(w: Wording)
    ensures TurnSafety.Robust(w, AllSilent())
  {
    forall ms, role, text | AllSilent()(ms)
      ensures AllSilent()(ms + [Note(role, text)])
    {
      NoteIsSilent(role, text);
    }
    forall ms | AllSilent()(ms)
      ensures AllSilent()(StripAllImages(w, ms))
    {
      forall i | 0 <= i < |ms|
        ensures Silent(StripAllImages(w, ms)[i])
      {
        assert ms[i] in ms;
        StripIsSilent(w, ms[i]);
      }
    }
  }

  lemma {:induction false} CallBlocksHaveNoText(calls: seq<Call>, results: string -> ToolOutcome)
    ensures TextOf(UseBlocks(calls)) == "" && TextOf(ResultBlocks(calls, results)) == ""
  {
    if calls != [] {
      CallBlocksHaveNoText(calls[1..], results);
    }
  }

  /** The text of a round is the text of its reply; its results carry none. */
  lemma {:induction false} RoundText(text: string, calls: seq<Call>, results: string -> ToolOutcome)
    ensures MessageText(Round(text, calls, results)[0]) == text
    ensures MessageText(Round(text, calls, results)[1]) == ""
  {
    CallBlocksHaveNoText(calls, results);
    var uses := UseBlocks(calls);
    if text == "" {
      assert [] + uses == uses;
    } else {
      var blocks := [Text(text)] + uses;
      assert blocks[0] == Text(text) && blocks[1..] == uses;
      assert TextOf(blocks) == text + "";
    }
  }

  lemma {:induction false} RoundIsSilent(text: string, calls: seq<Call>, results: string -> ToolOutcome)
    ensures AllSilent()(Round(text, calls, results))
  {
    var round := Round(text, calls, results);
    TurnSafety.RoundShapes(text, calls, results);
    RoundText(text, calls, results);
    assert ShapeOf(round[0]) == Shapes(round)[0] && ShapeOf(round[0]).answers == ResIds(round[0]);
    assert Silent(round[0]) && Silent(round[1]) && round == [round[0], round[1]];
  }

  lemma {:induction false} CheckpointIsSilent(b: Budgets, ms: seq<Message>, made: Option<Checkpoint>)
    requires AllSilent()(ms)
    ensures Compact(b, ms, made).Some? ==> AllSilent()(Compact(b, ms, made).value)
  {
    if Compact(b, ms, made).Some? {
      var order, summary := made.value.order, made.value.summary;
      ReplacementIsPicked(b, ms, order, summary);
      PickMembers(ms, Kept(b, ms, order), 0, |ms|);
      TextHasNoTools(SummaryMessage(summary).content.blocks[0]);
    }
  }

  lemma {:induction false} AllSilentIsAllowed(c: Config, s: Turn, events: seq<Event>)
    requires AllSilent()(s.chat.messages)
    ensures TurnSafety.RunAllows(c, AllSilent(), s, events)
    decreases |events|
  {
    if events != [] && Live(s) {
      SilentPass(c, s, events[0]);
      AllSilentIsRobust(c.say);
      TurnSafety.PassKeeps(c, AllSilent(), s, events[0]);
      AllSilentIsAllowed(c, Pass(c, s, events[0]), events[1..]);
    }
  }

  lemma {:induction false} SilentPass(c: Config, s: Turn, e: Event)
    requires AllSilent()(s.chat.messages)
    ensures TurnSafety.PassAllows(c, AllSilent(), s, e)
  {
    AllSilentIsRobust(c.say);
    if e.steer.Some? {
      TurnSafety.NoteKeeps(c.say, AllSilent(), s, e.steer.value);
    }
    var ms := TakeSteer(s, e.steer).chat.messages;
    CheckpointIsSilent(c.budgets, ms, e.midTurn);
    match e.outcome
    case Cancelled =>
    case Failed(error) => CheckpointIsSilent(c.budgets, ms, error.checkpoint);
    case Replied(reply) => RoundIsSilent(reply.text, Deduplicate(reply.calls), reply.results);
  }

  lemma {:induction false} NoTextIsOrdinary(m: Message)
    requires MessageText(m) == ""
    ensures KindOf(m).Ordinary?
  {
    assert Strip("") == "";
  }

  lemma {:induction false} AssistantDoesNotContinue(m: Message)
    requires m.role.Assistant?
    ensures !KindOf(m).Continue?
  {
  }

  lemma {:induction false} CallerShape(ss: seq<Shape>, i: nat)
    requires Ordered(ss) && i < |ss| && ss[i].uses != []
    ensures ss[i].assistant && ss[i].answers == []
  {
    var answers := ss[i].answers;
  }

  lemma {:induction false} OrderedIsTyped(ms: seq<Message>)
    requires Ordered(Shapes(ms)) && AllSilent()(ms)
    ensures RoundsAreTyped(KindOf, ShapeOf, ms)
  {
    forall m | m in ms
      ensures ShapeOf(m).answers != [] ==> KindOf(m).Ordinary?
      ensures ShapeOf(m).uses != [] ==> !KindOf(m).Continue? && ShapeOf(m).answers == []
    {
      if ShapeOf(m).answers != [] {
        NoTextIsOrdinary(m);
      }
      if ShapeOf(m).uses != [] {
        var i :| 0 <= i < |ms| && ms[i] == m;
        CallerShape(Shapes(ms), i);
        AssistantDoesNotContinue(m);
      }
    }
  }

  lemma {:induction false} OrderedIsAnswered(ms: seq<Message>, from: nat)
    requires Ordered(Shapes(ms)) && from <= |ms|
    ensures AnswersFrom(ShapeOf, if from == 0 then [] else ShapeOf(ms[from - 1]).uses, ms[from..])
    decreases |ms| - from
  {
    if from < |ms| {
      OrderedIsAnswered(ms, from + 1);
      assert ms[from..][0] == ms[from] && ms[from..][1..] == ms[from + 1..];
      OrderedAt(Shapes(ms), from);
    } else if from > 0 {
      assert Shapes(ms)[from - 1].uses == Open(Shapes(ms)) == [];
    }
  }

  lemma {:induction false} SentOfOrderedIff(ms: seq<Message>, at: nat)
    requires Ordered(Shapes(ms)) && AllSilent()(ms)
    ensures AnswersFrom(ShapeOf, [], SentHistory(KindOf, ms, at)) <==> !LosesCalls(KindOf, ShapeOf, ms, at)
  {
    OrderedIsAnswered(ms, 0);
    assert ms[0..] == ms;
    OrderedIsTyped(ms);
    SentIsPairedIff(KindOf, ShapeOf, ms, at);
  }

  /** What a run sends: at every model call, the history in the plan is paired exactly when no
      calling message of it, the current message aside, reads like an artefact. */
  lemma {:induction false} SentAlongRunsIsPairedIff(c: Config, s: Turn, events: seq<Event>, r: Request)
    requires TurnSafety.Paired(s) && TurnSafety.TidyRun(c, s, events) && AllSilent()(s.chat.messages)
    requires s.trace.requests == [] && r in Run(c, s, events).trace.requests
    ensures AnswersFrom(ShapeOf, [], SentHistory(KindOf, r.messages, r.current))
        <==> !LosesCalls(KindOf, ShapeOf, r.messages, r.current)
  {
    TurnSafety.EveryRequestIsPaired(c, s, events);
    AllSilentIsRobust(c.say);
    AllSilentIsAllowed(c, s, events);
    TurnSafety.RunKeeps(c, AllSilent(), s, events);
    SentOfOrderedIff(r.messages, r.current);
  }

  /** The whole plan is paired when its history is: everything else in it is plain. */
  lemma {:induction false} PlanIsPairedIff(ms: seq<Message>, at: nat, inj: Injections, finalization: string,
        transient: string)
    requires forall m | m in inj.memory :: ShapeOf(m).uses == [] && ShapeOf(m).answers == []
    ensures AnswersFrom(ShapeOf, [], PlanView(KindOf, ms, at, inj, finalization, transient).Flatten())
       <==> AnswersFrom(ShapeOf, [], SentHistory(KindOf, ms, at))
  {
    var before := Before(inj);
    var closing := AllNotes(inj.hooks) + Notes(Strip(inj.intent)) + Notes(finalization) + Notes(transient);
    forall m | m in before + closing
      ensures ShapeOf(m).uses == [] && ShapeOf(m).answers == []
    {
      InjectedIsPlain(inj, finalization, transient, m);
    }
    PlainAround(ShapeOf, before, SentHistory(KindOf, ms, at), closing);
    var flat := PlanView(KindOf, ms, at, inj, finalization, transient).Flatten();
    if at < |ms| {
      var pre, post := StripFrom(KindOf, ms[..at], 0), StripFrom(KindOf, ms[at + 1..], 0);
      Associates(before + pre + [ms[at]], post, closing);
      Associates(before, pre, [ms[at]]);
      Associates(before, pre + [ms[at]], post);
    } else {
      assert before + StripFrom(KindOf, ms, 0) + [] == before + StripFrom(KindOf, ms, 0);
    }
  }

  lemma {:induction false} InjectedIsPlain(inj: Injections, finalization: string, transient: string, m: Message)
    requires forall x | x in inj.memory :: ShapeOf(x).uses == [] && ShapeOf(x).answers == []
    requires m in Before(inj)
        + (AllNotes(inj.hooks) + Notes(Strip(inj.intent)) + Notes(finalization) + Notes(transient))
    ensures ShapeOf(m).uses == [] && ShapeOf(m).answers == []
  {
    if m !in inj.memory {
      var text :| m == Note(User, text);
      TurnSafety.NoteIsPlain(User, text);
    }
  }

  lemma {:induction false} ArtefactRoundIsLost(ms: seq<Message>, at: nat, reply: Reply)
    requires Ordered(Shapes(ms)) && AllSilent()(ms) && at < |ms|
    requires Deduplicate(reply.calls) != [] && MALFORMED_PREFIX <= Strip(reply.text)
    ensures var next := ms + Round(reply.text, Deduplicate(reply.calls), reply.results);
      Ordered(Shapes(next)) && !AnswersFrom(ShapeOf, [], SentHistory(KindOf, next, at))
  {
    var calls := Deduplicate(reply.calls);
    var round := Round(reply.text, calls, reply.results);
    TurnSafety.RoundInOrder(ms, reply);
    RoundIsSilent(reply.text, calls, reply.results);
    SentOfOrderedIff(ms + round, at);
    TurnSafety.RoundShapes(reply.text, calls, reply.results);
    RoundText(reply.text, calls, reply.results);
    ArtefactText(round[0], reply.text);
    assert (ms + round)[|ms|] == round[0] && ShapeOf(round[0]) == Shapes(round)[0];
    assert CallIds(calls) != [];
    assert ReadsAsArtefact(KindOf, ShapeOf, (ms + round)[|ms|]);
  }

  lemma {:induction false} ArtefactText(m: Message, text: string)
    requires MessageText(m) == text && MALFORMED_PREFIX <= Strip(text)
    ensures KindOf(m).Artefact?
  {
  }

  /** The case is real, on every turn that still has its user's message as the current one: a
      round whose text opens like an old retry instruction is sent with the next request as
      results without their calls. */
  lemma {:induction false} ArtefactTextOrphansResults(w: Wording, s: Turn, reply: Reply)
    requires TurnSafety.Paired(s) && AllSilent()(s.chat.messages) && s.chat.userIndex < |s.chat.messages|
    requires Deduplicate(reply.calls) != [] && MALFORMED_PREFIX <= Strip(reply.text)
    ensures var t := AfterTools(w, Execute(s, Deduplicate(reply.calls), reply), Fine);
      Live(t) ==>
        var next := NextRequest(t);
        TurnSafety.Paired(t) && !AnswersFrom(ShapeOf, [], SentHistory(KindOf, next.messages, next.current))
  {
    ArtefactRoundIsLost(s.chat.messages, s.chat.userIndex, reply);
    var ran := Execute(s, Deduplicate(reply.calls), reply);
    assert ran.chat.messages == s.chat.messages + Round(reply.text, Deduplicate(reply.calls), reply.results);
    assert ran.chat.userIndex == s.chat.userIndex;
    FineKeepsChat(w, ran);
  }

  lemma {:induction false} FineKeepsChat(w: Wording, s: Turn)
    ensures Live(AfterTools(w, s, Fine)) ==> AfterTools(w, s, Fine).chat == s.chat
  {
  }
}
