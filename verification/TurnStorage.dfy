/** What is stored of a session while a turn runs, and how it relates to the turn's history. */
module TurnStorage {
  import opened Options
  import opened Messages
  import opened ToolCalls
  import opened History
  import opened TurnLoop
  import opened TurnSafety

  // ---- How a turn grows its history -------------------------------------------------

  /** The history has only grown at its end. */
  predicate Extends(s: Turn, t: Turn) {
    && t.chat.stored == s.chat.stored && t.chat.userIndex == s.chat.userIndex
    && s.chat.messages <= t.chat.messages
  }

  lemma {:induction false} SteerExtends(s: Turn, steer: Option<string>)
    ensures Extends(s, TakeSteer(s, steer))
  {
  }

  lemma {:induction false} AfterToolsExtends(w: Wording, s: Turn, verdict: Verdict)
    ensures Extends(s, AfterTools(w, s, verdict))
  {
  }

  lemma {:induction false} AnswerExtends(w: Wording, s: Turn, reply: Reply)
    ensures Extends(s, OnAnswer(w, s, reply))
  {
  }

  lemma {:induction false} CallsExtend(w: Wording, s: Turn, calls: seq<Call>, reply: Reply)
    ensures Extends(s, OnCalls(w, s, calls, reply))
  {
    var ran := Execute(s, calls, reply);
    assert Extends(s, ran);
    AfterToolsExtends(w, ran, VerdictOn(calls, reply.results));
  }

  lemma {:induction false} ReplyExtends(w: Wording, s: Turn, reply: Reply)
    ensures Extends(s, OnReply(w, s, reply))
  {
    var t, calls := s.(transient := ""), Deduplicate(reply.calls);
    if s.closing.due {
      assert Extends(s, Close(s, reply));
    } else if reply.text == "" && calls == [] {
      assert Extends(s, OnEmpty(w, s));
    } else if calls == [] {
      AnswerExtends(w, t, reply);
    } else {
      CallsExtend(w, t, calls, reply);
    }
  }

  // ---- What is stored ---------------------------------------------------------------

  /** What is stored has the shape of the history before the current message. */
  ghost predicate Anchored(s: Turn) {
    && s.chat.userIndex <= |s.chat.messages|
    && Shapes(s.chat.stored.history) == Shapes(s.chat.messages[..s.chat.userIndex])
  }

  lemma {:induction false} ExtendsAnchored(s: Turn, t: Turn)
    requires Anchored(s) && Extends(s, t)
    ensures Anchored(t)
  {
    assert t.chat.messages[..s.chat.userIndex] == s.chat.messages[..s.chat.userIndex];
  }

  lemma {:induction false} AdoptAnchored(s: Turn, replacement: seq<Message>)
    ensures Anchored(Adopt(s, replacement))
  {
    assert replacement[..|replacement|] == replacement;
  }

  lemma {:induction false} StripAnchored(w: Wording, ms: seq<Message>, at: nat)
    requires at <= |ms|
    ensures Shapes(StripAllImages(w, ms)[..at]) == Shapes(ms[..at])
  {
    assert StripAllImages(w, ms)[..at] == StripAllImages(w, ms[..at]);
    StripAllKeepsShapes(w, ms[..at]);
  }

  lemma {:induction false} FailureAnchored(c: Config, s: Turn, e: Error)
    requires Anchored(s)
    ensures Anchored(OnFailure(c, s, e))
  {
    var ms, at := s.chat.messages, s.chat.userIndex;
    var made := Compact(c.budgets, ms, e.checkpoint);
    if made.Some? {
      AdoptAnchored(s.(control := s.control.(overflowRetried := true)), made.value);
    }
    ExtendsAnchored(s, Say(s, s.closing.fallback));
    var stripped := StripAllImages(c.say, ms);
    StripAnchored(c.say, ms, at);
    var next := stripped + [Note(User, c.say.imageNotice)];
    assert next[..at] == stripped[..at];
  }

  lemma {:induction false} PassAnchored(c: Config, s: Turn, e: Event)
    requires Anchored(s)
    ensures Anchored(Pass(c, s, e))
  {
    var t := TakeSteer(s, e.steer);
    SteerExtends(s, e.steer);
    ExtendsAnchored(s, t);
    if !e.interrupted {
      if CompactsFirst(c, t, e) {
        AdoptAnchored(ConsumeSkill(t), Compact(c.budgets, t.chat.messages, e.midTurn).value);
      } else {
        match e.outcome
        case Cancelled =>
        case Failed(error) => FailureAnchored(c, Ask(t), error);
        case Replied(reply) =>
          ReplyExtends(c.say, Ask(t), reply);
          ExtendsAnchored(Ask(t), OnReply(c.say, Ask(t), reply));
      }
    }
  }

  /** At every point of every run, what is stored is the history up to the current message, as
      far as tool rounds go. */
  lemma {:induction false} RunAnchored(c: Config, s: Turn, events: seq<Event>)
    requires Anchored(s)
    ensures Anchored(Run(c, s, events))
    decreases |events|
  {
    if events != [] && Live(s) {
      PassAnchored(c, s, events[0]);
      RunAnchored(c, Pass(c, s, events[0]), events[1..]);
    }
  }

  lemma {:induction false} PassStored(c: Config, s: Turn, e: Event)
    ensures var t := Pass(c, s, e); t.chat.stored == s.chat.stored || t.chat.stored.history == t.chat.messages
  {
    if !e.interrupted {
      var t := TakeSteer(s, e.steer);
      if !CompactsFirst(c, t, e) {
        match e.outcome
        case Cancelled =>
        case Failed(error) => FailureStored(c, Ask(t), error);
        case Replied(reply) => ReplyExtends(c.say, Ask(t), reply);
      }
    }
  }

  lemma {:induction false} FailureStored(c: Config, s: Turn, e: Error)
    ensures var t := OnFailure(c, s, e); t.chat.stored == s.chat.stored || t.chat.stored.history == t.chat.messages
  {
  }

  /** What holds of the history throughout a run holds of what is stored of it. */
  lemma {:induction false} RunStored(c: Config, p: seq<Message> -> bool, s: Turn, events: seq<Event>)
    requires Robust(c.say, p) && Has(p, s) && RunAllows(c, p, s, events) && p(s.chat.stored.history)
    ensures p(Run(c, s, events).chat.stored.history)
    decreases |events|
  {
    if events != [] && Live(s) {
      PassKeeps(c, p, s, events[0]);
      PassStored(c, s, events[0]);
      RunStored(c, p, Pass(c, s, events[0]), events[1..]);
    }
  }
}
