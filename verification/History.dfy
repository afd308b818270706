/** The shape of a conversation: every tool call is answered, in order, by the very next
    message. What the loop and the compressor do keeps it. */
module History {
  import opened Messages
  import opened Selection
  import opened ToolPairs
  import opened Compaction

  /** What tool pairing sees of a message. */
  datatype Shape = Shape(assistant: bool, uses: seq<string>, answers: seq<string>)

  function ShapeOf(m: Message): Shape {
    Shape(m.role.Assistant?, UseIds(m), ResIds(m))
  }

  function Shapes(ms: seq<Message>): (r: seq<Shape>)
    ensures |r| == |ms|
    ensures forall i :: 0 <= i < |ms| ==> r[i] == ShapeOf(ms[i])
  {
    seq(|ms|, i requires 0 <= i < |ms| => ShapeOf(ms[i]))
  }

  function Open(ss: seq<Shape>): seq<string> {
    if ss == [] then [] else ss[|ss| - 1].uses
  }

  /** Each message answers exactly the calls of the message before it. */
  ghost predicate AnswersInOrder(ss: seq<Shape>) {
    && (ss != [] ==> ss[0].answers == [])
    && (forall i, j {:trigger ss[i].uses, ss[j].answers} :: 0 <= i < |ss| - 1 && j == i + 1 ==>
        ss[j].answers == ss[i].uses)
  }

  /** Calls come from the assistant, carry ids, and stand in a message of their own. */
  ghost predicate CallsWellFormed(ss: seq<Shape>) {
    forall i {:trigger ss[i].uses, ss[i].answers} :: 0 <= i < |ss| && ss[i].uses != [] ==>
        ss[i].assistant && ss[i].answers == [] && "" !in ss[i].uses
  }

  /** No id is called by two messages. */
  ghost predicate IdsDistinct(ss: seq<Shape>) {
    forall i, j, x :: 0 <= i < j < |ss| && x in ss[i].uses ==> x !in ss[j].uses
  }

  /** Every call is answered, in order, by the next message, and nothing else is. */
  ghost predicate Ordered(ss: seq<Shape>) {
    AnswersInOrder(ss) && Open(ss) == [] && CallsWellFormed(ss)
  }

  /** And no id is used by two rounds. */
  ghost predicate Sound(ss: seq<Shape>) {
    Ordered(ss) && IdsDistinct(ss)
  }

  /** A message with results carries no text. */
  predicate Silent(m: Message) {
    ResIds(m) != [] ==> MessageText(m) == ""
  }

  function AllSilent(): seq<Message> -> bool {
    ms => forall m | m in ms :: Silent(m)
  }

  // ---- Growing a conversation -------------------------------------------------------

  lemma {:induction false} GrowsInOrder(ss: seq<Shape>, s: Shape)
    requires AnswersInOrder(ss) && s.answers == Open(ss)
    ensures AnswersInOrder(ss + [s])
  {
  }

  lemma {:induction false} SoundPlain(ss: seq<Shape>, s: Shape)
    requires Sound(ss) && s.uses == [] && s.answers == []
    ensures Sound(ss + [s])
  {
    OrderedPlain(ss, s);
  }

  lemma {:induction false} OrderedPlain(ss: seq<Shape>, s: Shape)
    requires Ordered(ss) && s.uses == [] && s.answers == []
    ensures Ordered(ss + [s])
  {
    var next := ss + [s];
    GrowsInOrder(ss, s);
    forall i | 0 <= i < |next| && next[i].uses != []
      ensures next[i].assistant && next[i].answers == [] && "" !in next[i].uses
    {
      assert next[i] == ss[i] && ss[i].answers == ss[i].answers;
    }
  }

  /** A tool round keeps the conversation in order, whatever its ids. */
  lemma {:induction false} OrderedRound(ss: seq<Shape>, ids: seq<string>)
    requires Ordered(ss) && "" !in ids
    ensures Ordered(ss + [Shape(true, ids, [])] + [Shape(false, [], ids)])
  {
    var call := ss + [Shape(true, ids, [])];
    GrowsInOrder(ss, Shape(true, ids, []));
    GrowsInOrder(call, Shape(false, [], ids));
    var all := call + [Shape(false, [], ids)];
    forall i | 0 <= i < |all| && all[i].uses != []
      ensures all[i].assistant && all[i].answers == [] && "" !in all[i].uses
    {
      assert i < |ss| ==> all[i] == ss[i] && ss[i].answers == ss[i].answers;
    }
  }

  /** The ids the calls of a conversation have used. */
  function UsedIds(ss: seq<Shape>): set<string> {
    set i, x | 0 <= i < |ss| && x in ss[i].uses :: x
  }

  /** A tool round whose ids are new keeps the conversation sound. */
  lemma {:induction false} SoundRound(ss: seq<Shape>, ids: seq<string>)
    requires Sound(ss) && "" !in ids
    requires forall x | x in ids :: x !in UsedIds(ss)
    ensures Sound(ss + [Shape(true, ids, [])] + [Shape(false, [], ids)])
  {
    var call := ss + [Shape(true, ids, [])];
    OrderedRound(ss, ids);
    forall i, j, x | 0 <= i < j < |call| && x in call[i].uses
      ensures x !in call[j].uses
    {
      assert x in UsedIds(ss);
    }
  }

  // ---- Picking part of a conversation -----------------------------------------------

  /** `keep` never separates the two messages of a tool round. */
  ghost predicate KeepsRounds(ss: seq<Shape>, keep: set<nat>) {
    && (forall i: nat {:trigger ss[i].uses} :: i < |ss| && i in keep && ss[i].uses != [] ==> i + 1 in keep)
    && (forall i: nat {:trigger ss[i].answers} :: i < |ss| && i in keep && ss[i].answers != [] ==>
        i > 0 && i - 1 in keep)
  }

  function Select(ss: seq<Shape>, keep: set<nat>, hi: nat): seq<Shape>
    requires hi <= |ss|
  {
    if hi == 0 then [] else Select(ss, keep, hi - 1) + if hi - 1 in keep then [ss[hi - 1]] else []
  }

  lemma {:induction false} ShapesOfPick(ms: seq<Message>, keep: set<nat>, hi: nat)
    requires hi <= |ms|
    ensures Shapes(Pick(ms, keep, 0, hi)) == Select(Shapes(ms), keep, hi)
  {
    if hi > 0 {
      ShapesOfPick(ms, keep, hi - 1);
    }
  }

  lemma {:induction false} SelectedRounds(ss: seq<Shape>, keep: set<nat>, hi: nat)
    requires hi <= |ss| && AnswersInOrder(ss) && KeepsRounds(ss, keep)
    ensures AnswersInOrder(Select(ss, keep, hi))
    ensures Open(Select(ss, keep, hi)) == if hi > 0 && hi - 1 in keep then ss[hi - 1].uses else []
  {
    if hi > 0 {
      SelectedRounds(ss, keep, hi - 1);
      var before, s := Select(ss, keep, hi - 1), ss[hi - 1];
      RoundsAt(ss, keep, hi - 1);
      if hi - 1 in keep {
        GrowsInOrder(before, s);
      } else {
        assert before + [] == before;
      }
    }
  }

  /** What is open before a message that is kept is what it answers; before one that is
      dropped, nothing is. */
  lemma {:induction false} RoundsAt(ss: seq<Shape>, keep: set<nat>, i: nat)
    requires i < |ss| && AnswersInOrder(ss) && KeepsRounds(ss, keep)
    ensures var open := if i > 0 && i - 1 in keep then ss[i - 1].uses else [];
      open == if i in keep then ss[i].answers else []
  {
    var answers := ss[i].answers;
    if i > 0 {
      var uses := ss[i - 1].uses;
    }
  }

  lemma {:induction false} SelectedMembers(ss: seq<Shape>, keep: set<nat>, hi: nat)
    requires hi <= |ss|
    ensures forall s :: s in Select(ss, keep, hi) ==> exists i: nat :: i < hi && i in keep && ss[i] == s
  {
    if hi > 0 {
      SelectedMembers(ss, keep, hi - 1);
    }
  }

  lemma {:induction false} SelectedDistinct(ss: seq<Shape>, keep: set<nat>, hi: nat)
    requires hi <= |ss| && IdsDistinct(ss)
    ensures IdsDistinct(Select(ss, keep, hi))
  {
    if hi > 0 {
      SelectedDistinct(ss, keep, hi - 1);
      SelectedMembers(ss, keep, hi - 1);
      var before, after := Select(ss, keep, hi - 1), Select(ss, keep, hi);
      forall i, j, x | 0 <= i < j < |after| && x in after[i].uses
        ensures x !in after[j].uses
      {
        assert before[i] in before;
      }
    }
  }

  lemma {:induction false} SelectedOrdered(ss: seq<Shape>, keep: set<nat>)
    requires Ordered(ss) && KeepsRounds(ss, keep)
    ensures Ordered(Select(ss, keep, |ss|))
  {
    SelectedRounds(ss, keep, |ss|);
    SelectedMembers(ss, keep, |ss|);
    var q := Select(ss, keep, |ss|);
    forall t | 0 <= t < |q| && q[t].uses != []
      ensures q[t].assistant && q[t].answers == [] && "" !in q[t].uses
    {
      assert q[t] in q;
      var i: nat :| i < |ss| && ss[i] == q[t];
      assert ss[i].uses != [] && ss[i].answers == [];
    }
  }

  // ---- Compacting a conversation ----------------------------------------------------

  lemma {:induction false} IdsOfSome(ids: seq<string>)
    requires "" !in ids
    ensures Ids(ids) == {} <==> ids == []
  {
    if ids != [] {
      assert ids[0] in Ids(ids);
    }
  }

  lemma {:induction false} OrderedAt(ss: seq<Shape>, i: nat)
    requires Ordered(ss) && i < |ss|
    ensures "" !in ss[i].uses && (ss[i].uses == [] || ss[i].answers == [])
    ensures ss[i].answers == if i == 0 then [] else ss[i - 1].uses
  {
    var answers := ss[i].answers;
    if i > 0 {
      var uses := ss[i - 1].uses;
    }
  }

  lemma {:induction false} DistinctColumn(ss: seq<Shape>, calls: Column)
    requires IdsDistinct(ss) && |calls| == |ss|
    requires forall i :: 0 <= i < |ss| ==> calls[i] == Ids(ss[i].uses)
    ensures Distinct(calls)
  {
  }

  lemma {:induction false} ShapeColumns(ss: seq<Shape>, calls: Column, results: Column)
    requires Ordered(ss) && |calls| == |results| == |ss|
    requires forall i :: 0 <= i < |ss| ==> calls[i] == Ids(ss[i].uses)
    requires forall i :: 0 <= i < |ss| ==> results[i] == Ids(ss[i].answers)
    ensures forall i :: 0 <= i < |ss| ==> (calls[i] == {} <==> ss[i].uses == [])
    ensures forall i :: 0 <= i < |ss| ==> (results[i] == {} <==> ss[i].answers == [])
  {
    forall i | 0 <= i < |ss|
      ensures calls[i] == {} <==> ss[i].uses == []
      ensures results[i] == {} <==> ss[i].answers == []
    {
      OrderedAt(ss, i);
      IdsOfSome(ss[i].uses);
      if i > 0 {
        OrderedAt(ss, i - 1);
        IdsOfSome(ss[i - 1].uses);
      }
    }
  }

  lemma {:induction false} AnswersNext(ss: seq<Shape>, calls: Column, results: Column)
    requires Ordered(ss) && |calls| == |results| == |ss|
    requires forall i :: 0 <= i < |ss| ==> calls[i] == Ids(ss[i].uses)
    requires forall i :: 0 <= i < |ss| ==> results[i] == Ids(ss[i].answers)
    ensures AnsweredNext(calls, results)
  {
    forall i | 0 <= i < |ss|
      ensures AnsweredAt(calls, results, i)
    {
      OrderedIdsAt(ss, i);
    }
    if ss != [] {
      NoIds(Open(ss));
    }
    AnsweredEverywhere(calls, results);
  }

  predicate AnsweredAt(calls: Column, results: Column, i: nat)
    requires i < |calls| == |results|
  {
    && results[i] == (if i == 0 then {} else calls[i - 1])
    && (calls[i] == {} || results[i] == {})
  }

  lemma {:induction false} AnsweredEverywhere(calls: Column, results: Column)
    requires |calls| == |results| && forall i :: 0 <= i < |calls| ==> AnsweredAt(calls, results, i)
    requires calls != [] ==> calls[|calls| - 1] == {}
    ensures AnsweredNext(calls, results)
  {
    forall i | 0 <= i < |calls|
      ensures results[i] == if i == 0 then {} else calls[i - 1]
      ensures calls[i] == {} || results[i] == {}
    {
      assert AnsweredAt(calls, results, i);
    }
  }

  lemma {:induction false} NoIds(ids: seq<string>)
    ensures ids == [] ==> Ids(ids) == {}
  {
  }

  lemma {:induction false} OrderedIdsAt(ss: seq<Shape>, i: nat)
    requires Ordered(ss) && i < |ss|
    ensures Ids(ss[i].answers) == if i == 0 then {} else Ids(ss[i - 1].uses)
    ensures Ids(ss[i].uses) == {} || Ids(ss[i].answers) == {}
  {
    OrderedAt(ss, i);
    NoIds(ss[i].uses);
    NoIds(ss[i].answers);
  }

  lemma {:induction false} OrderedColumns(ms: seq<Message>)
    requires Ordered(Shapes(ms))
    ensures AnsweredNext(Calls(ms), Results(ms))
    ensures IdsDistinct(Shapes(ms)) ==> Distinct(Calls(ms))
    ensures forall i :: 0 <= i < |ms| ==> (Calls(ms)[i] == {} <==> Shapes(ms)[i].uses == [])
    ensures forall i :: 0 <= i < |ms| ==> (Results(ms)[i] == {} <==> Shapes(ms)[i].answers == [])
  {
    ShapeColumns(Shapes(ms), Calls(ms), Results(ms));
    AnswersNext(Shapes(ms), Calls(ms), Results(ms));
    if IdsDistinct(Shapes(ms)) {
      DistinctColumn(Shapes(ms), Calls(ms));
    }
  }

  /** The cut a checkpoint makes is clean. */
  ghost predicate CutCleanly(b: Budgets, ms: seq<Message>) {
    CutsCleanly(Calls(ms), Results(ms), RecentTail(b, ms))
  }

  /** A checkpoint whose cut is clean keeps or drops the two messages of a tool round
      together. */
  lemma {:induction false} CleanCheckpointKeepsRounds(b: Budgets, ms: seq<Message>, order: seq<nat>)
    requires Ordered(Shapes(ms)) && VisitsTail(b, ms, order) && CutCleanly(b, ms)
    ensures KeepsRounds(Shapes(ms), Kept(b, ms, order))
  {
    var tail, users := Tail(b, ms, order), OlderUsers(b, ms, order);
    OrderedColumns(ms);
    CleanCutKeepsRounds(Calls(ms), Results(ms), order);
    KeptAreNotSummaries(b, ms, order);
    forall i | i in users
      ensures i < |ms| && Shapes(ms)[i].uses == [] && Shapes(ms)[i].answers == []
    {
      TypedIsPlain(ms, i);
    }
    KeptRounds(Shapes(ms), Calls(ms), Results(ms), tail, users);
  }

  /** A clean cut is exactly what keeps rounds whole in the tail, in whatever order the repair
      visits it. */
  lemma {:induction false} CleanCutIff(b: Budgets, ms: seq<Message>)
    requires Ordered(Shapes(ms))
    ensures (forall order: seq<nat> | VisitsTail(b, ms, order) :: Together(Calls(ms), Results(ms), Tail(b, ms, order)))
       <==> CutCleanly(b, ms)
  {
    OrderedColumns(ms);
    RoundsStayWholeIff(Calls(ms), Results(ms), RecentTail(b, ms));
    assert forall order: seq<nat> :: VisitsTail(b, ms, order) <==> Elements(order) == RecentTail(b, ms);
  }

  /** With distinct ids every cut is clean, and the repaired tail is closed. */
  lemma {:induction false} CheckpointKeepsRounds(b: Budgets, ms: seq<Message>, order: seq<nat>)
    requires Sound(Shapes(ms)) && VisitsTail(b, ms, order)
    ensures CutCleanly(b, ms) && Closed(Calls(ms), Results(ms), Tail(b, ms, order))
    ensures KeepsRounds(Shapes(ms), Kept(b, ms, order))
  {
    OrderedColumns(ms);
    DistinctCutsCleanly(Calls(ms), Results(ms), Elements(order));
    CleanCheckpointKeepsRounds(b, ms, order);
    OnePassClosesRounds(Calls(ms), Results(ms), order);
  }

  lemma {:induction false} TypedIsPlain(ms: seq<Message>, i: nat)
    requires Ordered(Shapes(ms)) && i < |ms| && IsRealUser(ms[i])
    ensures Shapes(ms)[i].uses == [] && Shapes(ms)[i].answers == []
  {
    RealUserHasNoResults(ms[i]);
    assert !Shapes(ms)[i].assistant && Shapes(ms)[i].answers == [];
  }

  lemma {:induction false} KeptRounds(ss: seq<Shape>, calls: Column, results: Column, tail: set<nat>, users: set<nat>)
    requires |calls| == |results| == |ss| && Within(|ss|, tail) && Together(calls, results, tail)
    requires forall i :: 0 <= i < |ss| ==> (calls[i] == {} <==> ss[i].uses == [])
    requires forall i :: 0 <= i < |ss| ==> (results[i] == {} <==> ss[i].answers == [])
    requires forall i | i in users :: i < |ss| && ss[i].uses == [] && ss[i].answers == []
    ensures KeepsRounds(ss, users + tail)
  {
    forall i: nat | i < |ss| && i in users + tail && ss[i].uses != []
      ensures i + 1 in users + tail
    {
      assert calls[i] != {};
    }
    forall i: nat | i < |ss| && i in users + tail && ss[i].answers != []
      ensures i > 0 && i - 1 in users + tail
    {
      assert results[i] != {};
    }
  }

  /** A checkpoint whose cut is clean keeps the conversation in order, even if ids repeat. */
  lemma {:induction false} CheckpointIsOrdered(b: Budgets, ms: seq<Message>, order: seq<nat>, summary: string)
    requires Ordered(Shapes(ms)) && VisitsTail(b, ms, order) && CutCleanly(b, ms)
    ensures Ordered(Shapes(Replacement(b, ms, order, summary)))
  {
    var kept := Kept(b, ms, order);
    CleanCheckpointKeepsRounds(b, ms, order);
    SelectedOrdered(Shapes(ms), kept);
    ShapesOfPick(ms, kept, |ms|);
    ReplacementIsPicked(b, ms, order, summary);
    SummaryJoins(Pick(ms, kept, 0, |ms|), summary);
  }

  /** A checkpoint of a sound conversation is a sound conversation. */
  lemma {:induction false} CheckpointIsSound(b: Budgets, ms: seq<Message>, order: seq<nat>, summary: string)
    requires Sound(Shapes(ms)) && VisitsTail(b, ms, order)
    ensures Sound(Shapes(Replacement(b, ms, order, summary)))
  {
    var kept := Kept(b, ms, order);
    CheckpointKeepsRounds(b, ms, order);
    CheckpointIsOrdered(b, ms, order, summary);
    SelectedDistinct(Shapes(ms), kept, |ms|);
    ShapesOfPick(ms, kept, |ms|);
    ReplacementIsPicked(b, ms, order, summary);
    SummaryShape(Pick(ms, kept, 0, |ms|), summary);
  }

  lemma {:induction false} SummaryShape(ms: seq<Message>, summary: string)
    ensures Shapes(ms + [SummaryMessage(summary)]) == Shapes(ms) + [Shape(false, [], [])]
  {
    var s := SummaryMessage(summary);
    TextHasNoTools(s.content.blocks[0]);
    assert Shapes(ms + [s]) == Shapes(ms) + [ShapeOf(s)];
  }

  lemma {:induction false} SummaryJoins(ms: seq<Message>, summary: string)
    requires Ordered(Shapes(ms))
    ensures Ordered(Shapes(ms + [SummaryMessage(summary)]))
  {
    SummaryShape(ms, summary);
    OrderedPlain(Shapes(ms), Shape(false, [], []));
  }

  lemma {:induction false} TextHasNoTools(b: Block)
    requires b.Text?
    ensures UsesOf([b]) == [] && ResultsOf([b]) == []
  {
    assert [b][1..] == [];
  }
}
