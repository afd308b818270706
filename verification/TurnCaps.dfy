/** The cap on identical successful tool calls within a turn. */
module TurnCaps {
  import opened ToolCalls
  import opened TurnLoop

  /** How many of the first n calls have this signature. */
  function Multiplicity(calls: seq<Call>, sig: Signature, n: nat): nat
    requires n <= |calls|
  {
    if n == 0 then 0 else Multiplicity(calls, sig, n - 1) + if SignatureOf(calls[n - 1]) == sig then 1 else 0
  }

  function SuccessfulAmong(calls: seq<Call>, results: string -> ToolOutcome, sig: Signature, n: nat): nat
    requires n <= |calls|
  {
    if n == 0 then 0
    else
      var last := if SignatureOf(calls[n - 1]) == sig && results(calls[n - 1].id).status.Success? then 1 else 0;
      SuccessfulAmong(calls, results, sig, n - 1) + last
  }

  /** The count after a round is the count before plus the successes of the round. */
  lemma {:induction false} TallyAdds(successes: map<Signature, nat>, calls: seq<Call>, results: string -> ToolOutcome,
        sig: Signature, n: nat)
    requires n <= |calls|
    ensures Count(Tally(successes, calls, results, n), sig)
        == Count(successes, sig) + SuccessfulAmong(calls, results, sig, n)
    ensures SuccessfulAmong(calls, results, sig, n) <= Multiplicity(calls, sig, n)
    ensures (forall o: string :: results(o).status.Success?) ==>
        SuccessfulAmong(calls, results, sig, n) == Multiplicity(calls, sig, n)
  {
    if n > 0 {
      TallyAdds(successes, calls, results, sig, n - 1);
    }
  }

  predicate WithinCap(successes: map<Signature, nat>, sig: Signature) {
    Count(successes, sig) <= MAX_IDENTICAL_SUCCESSFUL_TOOL_CALLS
  }

  /** No tool outcome can push this round over the cap. */
  ghost predicate SafeRound(successes: map<Signature, nat>, calls: seq<Call>) {
    forall results: string -> ToolOutcome, sig: Signature ::
      WithinCap(Tally(successes, calls, results, |calls|), sig)
  }

  /** No signature occurs in the batch more often than the cap still allows. */
  ghost predicate HasRoom(successes: map<Signature, nat>, calls: seq<Call>) {
    forall sig: Signature ::
        Count(successes, sig) + Multiplicity(calls, sig, |calls|) <= MAX_IDENTICAL_SUCCESSFUL_TOOL_CALLS
  }

  /** A round that is run respects the cap, whatever its tools return, exactly when there is
      room for it. */
  lemma {:induction false} RoundRespectsCapIff(successes: map<Signature, nat>, calls: seq<Call>)
    ensures SafeRound(successes, calls) <==> HasRoom(successes, calls)
  {
    if SafeRound(successes, calls) {
      var all := (id: string) => ToolOutcome(Success, false, OtherReason(""), "");
      forall sig: Signature
        ensures Count(successes, sig) + Multiplicity(calls, sig, |calls|) <= MAX_IDENTICAL_SUCCESSFUL_TOOL_CALLS
      {
        TallyAdds(successes, calls, all, sig, |calls|);
        assert WithinCap(Tally(successes, calls, all, |calls|), sig);
      }
    } else {
      var results: string -> ToolOutcome, sig: Signature :| !WithinCap(Tally(successes, calls, results, |calls|), sig);
      TallyAdds(successes, calls, results, sig, |calls|);
      assert Count(successes, sig) + Multiplicity(calls, sig, |calls|) > MAX_IDENTICAL_SUCCESSFUL_TOOL_CALLS;
    }
  }

  // ---- What a reply does to the counts ----------------------------------------------

  ghost predicate Capped(s: Turn) {
    forall sig: Signature :: WithinCap(s.successes, sig)
  }

  /** The reply leads to a tool round: the turn is not closing, the calls are not sent back as
      malformed, and none of them is at the cap already. */
  predicate RunsRound(s: Turn, reply: Reply) {
    var calls := Deduplicate(reply.calls);
    && !s.closing.due && calls != []
    && !(AnyCall(calls, Invalid) && s.control.retry.invalidTool < MAX_INVALID_TOOL)
    && !AnyCall(calls, (c: Call) => AtLimit(s.successes, c))
  }

  function CountsAfter(s: Turn, reply: Reply): map<Signature, nat> {
    var calls := Deduplicate(reply.calls);
    if RunsRound(s, reply) then Tally(s.successes, calls, reply.results, |calls|) else s.successes
  }

  lemma {:induction false} CallsCount(w: Wording, s: Turn, reply: Reply)
    ensures var calls := Deduplicate(reply.calls);
      OnCalls(w, s, calls, reply).successes
        == if AnyCall(calls, (c: Call) => AtLimit(s.successes, c)) then s.successes
            else Tally(s.successes, calls, reply.results, |calls|)
  {
    var calls := Deduplicate(reply.calls);
    var ran := Execute(s, calls, reply);
    assert AfterTools(w, ran, VerdictOn(calls, reply.results)).successes == ran.successes;
  }

  lemma {:induction false} ReplyCounts(w: Wording, s: Turn, reply: Reply)
    ensures OnReply(w, s, reply).successes == CountsAfter(s, reply)
  {
    var t, calls := s.(transient := ""), Deduplicate(reply.calls);
    if s.closing.due {
      assert Close(s, reply).successes == s.successes;
    } else if reply.text == "" && calls == [] {
      assert OnEmpty(w, s).successes == s.successes;
    } else if calls == [] {
      assert OnAnswer(w, t, reply).successes == s.successes;
    } else {
      CallsCount(w, t, reply);
    }
  }

  /** The same reply with other tool outcomes. */
  function Returning(reply: Reply, results: string -> ToolOutcome): Reply {
    reply.(results := results)
  }

  /** The cap is checked once per reply, not once per call, and only repeated ids are dropped
      from a reply. So a reply leaves the turn within the cap, whatever its tools return,
      exactly when it runs no round or there is room for the one it runs. */
  lemma {:induction false} ReplyStaysCappedIff(w: Wording, s: Turn, reply: Reply)
    requires Capped(s)
    ensures (forall results: string -> ToolOutcome :: Capped(OnReply(w, s, Returning(reply, results))))
       <==> (RunsRound(s, reply) ==> HasRoom(s.successes, Deduplicate(reply.calls)))
  {
    var calls := Deduplicate(reply.calls);
    forall results: string -> ToolOutcome
      ensures OnReply(w, s, Returning(reply, results)).successes
           == if RunsRound(s, reply) then Tally(s.successes, calls, results, |calls|) else s.successes
    {
      ReplyCounts(w, s, Returning(reply, results));
    }
    if RunsRound(s, reply) {
      RoundRespectsCapIff(s.successes, calls);
      if SafeRound(s.successes, calls) {
        forall results: string -> ToolOutcome
          ensures Capped(OnReply(w, s, Returning(reply, results)))
        {
          assert forall sig: Signature :: WithinCap(Tally(s.successes, calls, results, |calls|), sig);
        }
      } else {
        var results: string -> ToolOutcome,
            sig: Signature :| !WithinCap(Tally(s.successes, calls, results, |calls|), sig);
        assert !Capped(OnReply(w, s, Returning(reply, results)));
      }
    }
  }

  // ---- Whole turns ------------------------------------------------------------------

  /** There is room for every round along the run. */
  ghost predicate RoomyRun(c: Config, s: Turn, events: seq<Event>)
    decreases |events|
  {
    events == [] || !Live(s) ||
    (var e := events[0];
     && (Hears(c, s, e) && RunsRound(s, e.outcome.reply) ==> HasRoom(s.successes, Deduplicate(e.outcome.reply.calls)))
     && RoomyRun(c, Pass(c, s, e), events[1..]))
  }

  lemma {:induction false} PassCounts(c: Config, s: Turn, e: Event)
    ensures Pass(c, s, e).successes == if Hears(c, s, e) then CountsAfter(s, e.outcome.reply) else s.successes
  {
    if !e.interrupted {
      var t := TakeSteer(s, e.steer);
      if !CompactsFirst(c, t, e) {
        match e.outcome
        case Cancelled =>
        case Failed(error) => assert OnFailure(c, Ask(t), error).successes == s.successes;
        case Replied(reply) =>
          ReplyCounts(c.say, Ask(t), reply);
          assert Ask(t).successes == s.successes && Ask(t).closing == s.closing && Ask(t).control == s.control;
      }
    }
  }

  lemma {:induction false} RoomyPassStaysCapped(c: Config, s: Turn, e: Event)
    requires Capped(s)
    requires Hears(c, s, e) && RunsRound(s, e.outcome.reply) ==>
        HasRoom(s.successes, Deduplicate(e.outcome.reply.calls))
    ensures Capped(Pass(c, s, e))
  {
    PassCounts(c, s, e);
    if Hears(c, s, e) && RunsRound(s, e.outcome.reply) {
      var calls := Deduplicate(e.outcome.reply.calls);
      RoundRespectsCapIff(s.successes, calls);
      assert forall sig: Signature :: WithinCap(Tally(s.successes, calls, e.outcome.reply.results, |calls|), sig);
    }
  }

  /** Then no call succeeds more than three times in a turn. */
  lemma {:induction false} TurnStaysCapped(c: Config, s: Turn, events: seq<Event>)
    requires Capped(s) && RoomyRun(c, s, events)
    ensures Capped(Run(c, s, events))
    decreases |events|
  {
    if events != [] && Live(s) {
      RoomyPassStaysCapped(c, s, events[0]);
      TurnStaysCapped(c, Pass(c, s, events[0]), events[1..]);
    }
  }

  /** No two calls of the reply are identical. */
  ghost predicate DistinctCalls(calls: seq<Call>) {
    forall i, j :: 0 <= i < j < |calls| ==> SignatureOf(calls[i]) != SignatureOf(calls[j])
  }

  lemma {:induction false} DistinctOnce(calls: seq<Call>, sig: Signature, n: nat)
    requires n <= |calls| && DistinctCalls(calls)
    ensures Multiplicity(calls, sig, n) <= 1
    ensures Multiplicity(calls, sig, n) == 1 ==> exists i :: 0 <= i < n && SignatureOf(calls[i]) == sig
  {
    if n > 0 {
      DistinctOnce(calls, sig, n - 1);
    }
  }

  lemma {:induction false} DistinctCallsHaveRoom(s: Turn, reply: Reply)
    requires Capped(s) && RunsRound(s, reply) && DistinctCalls(Deduplicate(reply.calls))
    ensures HasRoom(s.successes, Deduplicate(reply.calls))
  {
    var calls := Deduplicate(reply.calls);
    AnyCallIff(calls, (c: Call) => AtLimit(s.successes, c));
    forall sig: Signature
      ensures Count(s.successes, sig) + Multiplicity(calls, sig, |calls|) <= MAX_IDENTICAL_SUCCESSFUL_TOOL_CALLS
    {
      assert WithinCap(s.successes, sig);
      DistinctOnce(calls, sig, |calls|);
      if i :| 0 <= i < |calls| && SignatureOf(calls[i]) == sig {
        assert !AtLimit(s.successes, calls[i]);
      }
    }
  }

  /** Replies along a run never make the same call twice at once. */
  ghost predicate DistinctEvents(events: seq<Event>) {
    forall e | e in events && e.outcome.Replied? :: DistinctCalls(Deduplicate(e.outcome.reply.calls))
  }

  /** Replies without identical calls always find room. */
  lemma {:induction false} DistinctRunsAreRoomy(c: Config, s: Turn, events: seq<Event>)
    requires Capped(s) && DistinctEvents(events)
    ensures RoomyRun(c, s, events)
    decreases |events|
  {
    if events != [] && Live(s) {
      var e := events[0];
      assert e in events && forall x | x in events[1..] :: x in events;
      if Hears(c, s, e) && RunsRound(s, e.outcome.reply) {
        DistinctCallsHaveRoom(s, e.outcome.reply);
      }
      RoomyPassStaysCapped(c, s, e);
      DistinctRunsAreRoomy(c, Pass(c, s, e), events[1..]);
    }
  }

  // ---- Four at once -----------------------------------------------------------------

  lemma {:induction false} FourAreKept(name: string, input: string)
    ensures var raw := [RawCall("a", name, input), RawCall("b", name, input), RawCall("c", name, input),
        RawCall("d", name, input)];
      Deduplicate(raw)
          == [Call("a", name, input), Call("b", name, input), Call("c", name, input), Call("d", name, input)]
  {
    var raw := [RawCall("a", name, input), RawCall("b", name, input), RawCall("c", name, input),
        RawCall("d", name, input)];
    var calls := [Call("a", name, input), Call("b", name, input), Call("c", name, input), Call("d", name, input)];
    StripLetter('a');
    StripLetter('b');
    StripLetter('c');
    StripLetter('d');
    assert Normalize(raw[0], 0) == calls[0] && Normalize(raw[1], 1) == calls[1] && Normalize(raw[2], 2) == calls[2]
        && Normalize(raw[3], 3) == calls[3];
    assert NormalizeAll(raw) == calls;
    DistinctUnchanged(calls, 4);
    assert calls[..4] == calls;
  }

  /** A reply with four identical calls under four ids passes the filter and the check; when
      all four succeed, the turn is over the cap. */
  lemma {:induction false} FourAtOnceExceedTheCap(w: Wording, s: Turn, reply: Reply, name: string, input: string)
    requires !s.closing.due && input != "" && Count(s.successes, (name, input)) == 0
    requires reply.calls == [RawCall("a", name, input), RawCall("b", name, input), RawCall("c", name, input),
        RawCall("d", name, input)]
    requires forall id: string :: reply.results(id).status.Success?
    ensures Count(OnReply(w, s, reply).successes, (name, input)) == 4 && !Capped(OnReply(w, s, reply))
  {
    var calls := [Call("a", name, input), Call("b", name, input), Call("c", name, input), Call("d", name, input)];
    FourAreKept(name, input);
    AnyCallIff(calls, (c: Call) => AtLimit(s.successes, c));
    AnyCallIff(calls, Invalid);
    AllTheSame(calls, (name, input), 4);
    TallyAdds(s.successes, calls, reply.results, (name, input), 4);
    assert RunsRound(s, reply);
    ReplyCounts(w, s, reply);
    assert !WithinCap(OnReply(w, s, reply).successes, (name, input));
  }

  lemma {:induction false} AllTheSame(calls: seq<Call>, sig: Signature, n: nat)
    requires n <= |calls| && forall i :: 0 <= i < n ==> SignatureOf(calls[i]) == sig
    ensures Multiplicity(calls, sig, n) == n
  {
    if n > 0 {
      AllTheSame(calls, sig, n - 1);
    }
  }
}
