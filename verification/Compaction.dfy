/** Building the replacement history of a context checkpoint: the recent tail with its tool
    pairs repaired, older user messages under their own budget, and one new summary. */
module Compaction {
  import opened Messages
  import opened Selection
  import opened ToolPairs

  datatype Budgets = Budgets(tail: int, users: int, tokens: Message -> nat) {
    function Lens(): View {
      View(tokens, IsSummary, IsRealUser)
    }
  }

  function RecentTail(b: Budgets, ms: seq<Message>): set<nat> {
    Recent(b.Lens(), ms, b.tail)
  }

  /** `order` is the order in which the recent tail was visited when its pairs were repaired. */
  predicate VisitsTail(b: Budgets, ms: seq<Message>, order: seq<nat>) {
    Elements(order) == RecentTail(b, ms)
  }

  function Tail(b: Budgets, ms: seq<Message>, order: seq<nat>): (kept: set<nat>)
    requires VisitsTail(b, ms, order)
    ensures kept <= RecentTail(b, ms)
  {
    CompletePairs(Calls(ms), Results(ms), order)
  }

  function OlderUsers(b: Budgets, ms: seq<Message>, order: seq<nat>): set<nat>
    requires VisitsTail(b, ms, order)
  {
    Users(b.Lens(), ms, Tail(b, ms, order), b.users)
  }

  function Kept(b: Budgets, ms: seq<Message>, order: seq<nat>): set<nat>
    requires VisitsTail(b, ms, order)
  {
    OlderUsers(b, ms, order) + Tail(b, ms, order)
  }

  function NonSummaries(ms: seq<Message>): seq<Message> {
    if ms == [] then [] else (if IsSummary(ms[0]) then [] else [ms[0]]) + NonSummaries(ms[1..])
  }

  function Replacement(b: Budgets, ms: seq<Message>, order: seq<nat>, summary: string): seq<Message>
    requires VisitsTail(b, ms, order)
  {
    NonSummaries(Pick(ms, Kept(b, ms, order), 0, |ms|)) + [SummaryMessage(summary)]
  }

  /** What the older user messages cost together. */
  function RetainedTokens(b: Budgets, ms: seq<Message>, order: seq<nat>): nat
    requires VisitsTail(b, ms, order)
  {
    CostOf(b.Lens(), Pick(ms, OlderUsers(b, ms, order), 0, |ms|))
  }

  method BuildReplacementHistory(b: Budgets, ms: seq<Message>, summary: string)
    returns (replacement: seq<Message>, retained: nat, order: seq<nat>)
    ensures VisitsTail(b, ms, order)
      && replacement == Replacement(b, ms, order, summary)
      && retained == RetainedTokens(b, ms, order)
    ensures replacement != [] && replacement[|replacement| - 1].role == User
    ensures MessageText(replacement[|replacement| - 1]) == "[Context checkpoint summary]\n" + Strip(summary)
  {
    SummarySays(summary);
    var recent := SelectRecentIndices(b.Lens(), ms, b.tail);
    var tail: set<nat>;
    tail, order := CompleteToolPairs(ms, recent);
    var users: set<nat>;
    users, retained := SelectUserIndices(b.Lens(), ms, tail, b.users);
    replacement := NonSummaries(Pick(ms, users + tail, 0, |ms|));
    replacement := replacement + [SummaryMessage(summary)];
  }

  // ---- What a replacement history contains ------------------------------------------

  lemma {:induction false} NothingToFilter(ms: seq<Message>)
    requires forall m | m in ms :: !IsSummary(m)
    ensures NonSummaries(ms) == ms
  {
    if ms != [] {
      NothingToFilter(ms[1..]);
    }
  }

  lemma {:induction false} KeptAreNotSummaries(b: Budgets, ms: seq<Message>, order: seq<nat>)
    requires VisitsTail(b, ms, order)
    ensures forall i | i in Kept(b, ms, order) :: i < |ms| && !IsSummary(ms[i])
    ensures forall i | i in OlderUsers(b, ms, order) :: i < |ms| && IsRealUser(ms[i]) && i !in Tail(b, ms, order)
  {
  }

  lemma {:induction false} ReplacementIsPicked(b: Budgets, ms: seq<Message>, order: seq<nat>, summary: string)
    requires VisitsTail(b, ms, order)
    ensures Replacement(b, ms, order, summary) == Pick(ms, Kept(b, ms, order), 0, |ms|) + [SummaryMessage(summary)]
  {
    KeptAreNotSummaries(b, ms, order);
    PickMembers(ms, Kept(b, ms, order), 0, |ms|);
    NothingToFilter(Pick(ms, Kept(b, ms, order), 0, |ms|));
  }

  lemma {:induction false} RecentWithinBudget(v: View, ms: seq<Message>, tail: set<nat>, budget: int)
    requires tail <= Recent(v, ms, budget)
    ensures budget >= 0 ==> CostOf(v, Pick(ms, tail, 0, |ms|)) <= budget
    ensures budget <= 0 ==> tail == {}
  {
    var k := RecentCut(v, ms, |ms|, budget);
    if budget >= 0 {
      RecentIsMaximal(v, ms, |ms|, budget);
      PickSplit(ms, tail, 0, k, |ms|);
      PickNone(ms, tail, 0, k);
      assert Pick(ms, tail, 0, |ms|) == Pick(ms, tail, k, |ms|);
      PickCostMonotone(v, ms, tail, From(v, ms, k), k, |ms|);
    }
    if budget <= 0 {
      NoBudgetNoTail(v, ms, |ms|, budget);
    }
  }

  /** The replacement is a subsequence of the non-summary messages followed by exactly one
      summary; the tail and the older user messages are disjoint and each respects its
      budget. */
  lemma {:induction false} ReplacementShape(b: Budgets, ms: seq<Message>, order: seq<nat>, summary: string)
    requires VisitsTail(b, ms, order)
    ensures Replacement(b, ms, order, summary) == Pick(ms, Kept(b, ms, order), 0, |ms|) + [SummaryMessage(summary)]
    ensures forall i | i in Kept(b, ms, order) :: i < |ms| && !IsSummary(ms[i])
    ensures Tail(b, ms, order) !! OlderUsers(b, ms, order)
    ensures if b.tail <= 0 then Tail(b, ms, order) == {}
            else CostOf(b.Lens(), Pick(ms, Tail(b, ms, order), 0, |ms|)) <= b.tail
    ensures if b.users <= 0 then OlderUsers(b, ms, order) == {}
            else CostOf(b.Lens(), Pick(ms, OlderUsers(b, ms, order), 0, |ms|)) <= b.users
  {
    var tail := Tail(b, ms, order);
    assert Replacement(b, ms, order, summary) == Pick(ms, Kept(b, ms, order), 0, |ms|) + [SummaryMessage(summary)] by {
      ReplacementIsPicked(b, ms, order, summary);
    }
    assert forall i | i in Kept(b, ms, order) :: i < |ms| && !IsSummary(ms[i]) by {
      KeptAreNotSummaries(b, ms, order);
    }
    assert if b.tail <= 0 then tail == {} else CostOf(b.Lens(), Pick(ms, tail, 0, |ms|)) <= b.tail by {
      RecentWithinBudget(b.Lens(), ms, tail, b.tail);
    }
    UsersWithinBudget(b.Lens(), ms, tail, b.users);
  }

  lemma {:induction false} UsersWithinBudget(v: View, ms: seq<Message>, excluded: set<nat>, budget: int)
    ensures budget >= 0 ==> CostOf(v, Pick(ms, Users(v, ms, excluded, budget), 0, |ms|)) <= budget
    ensures budget <= 0 ==> Users(v, ms, excluded, budget) == {}
  {
    var users := Users(v, ms, excluded, budget);
    var k := UserCut(v, ms, excluded, |ms|, 0, budget);
    if budget >= 0 {
      UsersAreMaximal(v, ms, excluded, |ms|, 0, budget);
      PickSplit(ms, users, 0, k, |ms|);
      PickNone(ms, users, 0, k);
      assert Pick(ms, users, 0, |ms|) == Pick(ms, users, k, |ms|);
    }
    if budget <= 0 {
      NoBudgetNoUsers(v, ms, excluded, |ms|, budget);
    }
  }

  lemma {:induction false} NoBudgetNoUsers(v: View, ms: seq<Message>, excluded: set<nat>, n: nat, budget: int)
    requires n <= |ms| && budget <= 0
    ensures forall i: nat :: UserCut(v, ms, excluded, n, 0, budget) <= i < n ==> !Candidate(v, ms, excluded, i)
  {
    if n > 0 && !Candidate(v, ms, excluded, n - 1) {
      NoBudgetNoUsers(v, ms, excluded, n - 1, budget);
    }
  }

  // ---- A tail one repair does not close ---------------------------------------------

  function CallFor(id: string): Block {
    ToolUse(id, "read", "{}")
  }

  function AnswerTo(id: string): Block {
    ToolResult(id, "")
  }

  /** Two calls in two messages, answered together in a third. */
  function MixedHistory(): seq<Message> {
    [Message(Assistant, Blocks([CallFor("a")])), Message(Assistant, Blocks([CallFor("b")])),
     Message(User, Blocks([AnswerTo("a"), AnswerTo("b")]))]
  }

  function TwoMessages(): Budgets {
    Budgets(2, 0, (m: Message) => 1)
  }

  lemma {:induction false} OneCallIds(id: string)
    requires id != ""
    ensures Ids(UsesOf([CallFor(id)])) == {id} && Ids(ResultsOf([CallFor(id)])) == {}
  {
    var block := CallFor(id);
    assert [block][1..] == [];
    assert UsesOf([block]) == [id] + [] == [id];
    assert ResultsOf([block]) == [];
  }

  lemma {:induction false} TwoAnswerIds(x: string, y: string)
    requires x != "" && y != ""
    ensures Ids(ResultsOf([AnswerTo(x), AnswerTo(y)])) == {x, y} && Ids(UsesOf([AnswerTo(x), AnswerTo(y)])) == {}
  {
    var a, b := AnswerTo(x), AnswerTo(y);
    assert [a, b][1..] == [b] && [b][1..] == [];
    assert ResultsOf([b]) == [y] + [] == [y];
    assert ResultsOf([a, b]) == [x] + [y] == [x, y];
    assert [x, y][0] == x && [x, y][1] == y;
    assert UsesOf([b]) == [] + UsesOf([]) == [];
    assert UsesOf([a, b]) == [] + UsesOf([b]) == [];
  }

  lemma {:induction false} MixedColumns()
    ensures Calls(MixedHistory()) == MIXED_CALLS && Results(MixedHistory()) == MIXED_RESULTS
  {
    var ms := MixedHistory();
    OneCallIds("a");
    OneCallIds("b");
    TwoAnswerIds("a", "b");
    assert BlocksOf(ms[0]) == [CallFor("a")] && BlocksOf(ms[1]) == [CallFor("b")]
        && BlocksOf(ms[2]) == [AnswerTo("a"), AnswerTo("b")];
    assert Calls(ms) == [Calls(ms)[0], Calls(ms)[1], Calls(ms)[2]];
    assert Results(ms) == [Results(ms)[0], Results(ms)[1], Results(ms)[2]];
  }

  lemma {:induction false} NoTextIsNoSummary(m: Message)
    requires MessageText(m) == ""
    ensures !IsSummary(m)
  {
    assert LStrip("") == "";
  }

  /** The scan picks the last two messages of it, and the repair leaves the second call in the
      checkpoint without its answer, in whatever order it visits them. */
  lemma {:induction false} MixedTailStaysOpen(order: seq<nat>)
    requires VisitsTail(TwoMessages(), MixedHistory(), order)
    ensures RecentTail(TwoMessages(), MixedHistory()) == {1, 2}
    ensures Tail(TwoMessages(), MixedHistory(), order) == {1}
    ensures AnsweredLater(Calls(MixedHistory()), Results(MixedHistory()))
    ensures !Closed(Calls(MixedHistory()), Results(MixedHistory()), {1})
  {
    MixedTailIsPicked();
    MixedColumns();
    MixedAnswersNeedASecondPass(order);
  }

  lemma {:induction false} MixedTailIsPicked()
    ensures RecentTail(TwoMessages(), MixedHistory()) == {1, 2}
  {
    var ms, v := MixedHistory(), TwoMessages().Lens();
    forall i | 0 <= i < 3
      ensures !v.summary(ms[i]) && Cost(v, ms[i]) == 1
    {
      MixedHasNoText(i);
      NoTextIsNoSummary(ms[i]);
    }
    assert RecentCut(v, ms, 1, 0) == 1;
    assert RecentCut(v, ms, 2, 1) == 1;
    assert RecentCut(v, ms, 3, 2) == 1;
  }

  lemma {:induction false} MixedHasNoText(i: nat)
    requires i < 3
    ensures MessageText(MixedHistory()[i]) == ""
  {
    var a, b := AnswerTo("a"), AnswerTo("b");
    assert [CallFor("a")][1..] == [] && [CallFor("b")][1..] == [] && [a, b][1..] == [b] && [b][1..] == [];
    assert TextOf([b]) == "" + TextOf([]) && TextOf([a, b]) == "" + TextOf([b]);
    assert TextOf([CallFor("a")]) == "" + TextOf([]) && TextOf([CallFor("b")]) == "" + TextOf([]);
    assert i == 0 || i == 1 || i == 2;
  }
}
