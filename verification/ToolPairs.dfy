/** Repairing a cut history: a tool call is kept only with its result, and a result only
    with its call. The history is seen as two columns, the set of ids each message calls
    and the set of ids each message answers. */
module ToolPairs {
  import opened Messages

  type Column = seq<set<string>>

  function Ids(s: seq<string>): set<string> {
    set x | x in s && x != ""
  }

  function Calls(ms: seq<Message>): (c: Column)
    ensures |c| == |ms|
    ensures forall i :: 0 <= i < |ms| ==> c[i] == Ids(UseIds(ms[i]))
  {
    seq(|ms|, i requires 0 <= i < |ms| => Ids(UseIds(ms[i])))
  }

  function Results(ms: seq<Message>): (c: Column)
    ensures |c| == |ms|
    ensures forall i :: 0 <= i < |ms| ==> c[i] == Ids(ResIds(ms[i]))
  {
    seq(|ms|, i requires 0 <= i < |ms| => Ids(ResIds(ms[i])))
  }

  predicate Within(n: nat, sel: set<nat>) {
    forall i | i in sel :: i < n
  }

  function Elements(order: seq<nat>): set<nat> {
    set i | i in order
  }

  /** The ids a selection of messages mentions. */
  function Mentioned(column: Column, sel: set<nat>): set<string>
    requires Within(|column|, sel)
  {
    set i, x | i in sel && x in column[i] :: x
  }

  // ---- The pass ---------------------------------------------------------------------

  function Record(m: map<string, nat>, ids: set<string>, index: nat): map<string, nat> {
    m + map x | x in ids :: index
  }

  /** For each id, the message recorded for it when the selection is visited in `order`:
      the last one visited wins. */
  function LastAt(column: Column, order: seq<nat>): map<string, nat>
    requires Within(|column|, Elements(order))
  {
    if order == [] then map[]
    else
      var last := order[|order| - 1];
      assert last in Elements(order) && Elements(order[..|order| - 1]) <= Elements(order);
      Record(LastAt(column, order[..|order| - 1]), column[last], last)
  }

  lemma {:induction false} LastAtRecords(column: Column, order: seq<nat>)
    requires Within(|column|, Elements(order))
    ensures LastAt(column, order).Keys == Mentioned(column, Elements(order))
    ensures forall x | x in LastAt(column, order) ::
      LastAt(column, order)[x] in Elements(order) && x in column[LastAt(column, order)[x]]
  {
    if order != [] {
      var init := order[..|order| - 1];
      assert Elements(order) == Elements(init) + {order[|order| - 1]};
      LastAtRecords(column, init);
    }
  }

  /** The indices recorded for an id that lacks its other half. */
  function Incomplete(calls: map<string, nat>, results: map<string, nat>): set<nat> {
    (set x | x in calls && x !in results :: calls[x]) + (set x | x in results && x !in calls :: results[x])
  }

  function CompletePairs(calls: Column, results: Column, order: seq<nat>): (kept: set<nat>)
    requires |calls| == |results| && Within(|calls|, Elements(order))
    ensures kept <= Elements(order)
  {
    Elements(order) - Incomplete(LastAt(calls, order), LastAt(results, order))
  }

  lemma {:induction false} UsesSnoc(blocks: seq<Block>, b: nat)
    requires b < |blocks|
    ensures UsesOf(blocks[..b + 1]) == UsesOf(blocks[..b]) + (if blocks[b].ToolUse? then [blocks[b].id] else [])
    ensures ResultsOf(blocks[..b + 1])
        == ResultsOf(blocks[..b]) + (if blocks[b].ToolResult? then [blocks[b].toolUseId] else [])
  {
    assert blocks[..b + 1] == blocks[..b] + [blocks[b]];
    UsesConcat(blocks[..b], [blocks[b]]);
    ResultsConcat(blocks[..b], [blocks[b]]);
    assert [blocks[b]][1..] == [];
  }

  lemma {:induction false} LastAtSnoc(column: Column, order: seq<nat>, index: nat)
    requires index < |column| && Within(|column|, Elements(order))
    ensures Elements(order + [index]) == Elements(order) + {index}
    ensures LastAt(column, order + [index]) == Record(LastAt(column, order), column[index], index)
  {
    var next := order + [index];
    assert Elements(next) == Elements(order) + {index} by {
      assert next[|order|] == index;
    }
    assert next[..|next| - 1] == order;
  }

  lemma {:induction false} RecordOne(m: map<string, nat>, ids: seq<string>, x: string, index: nat)
    ensures Record(m, Ids(ids + [x]), index)
         == if x == "" then Record(m, Ids(ids), index) else Record(m, Ids(ids), index)[x := index]
  {
    assert (ids + [x])[|ids|] == x;
    assert Ids(ids + [x]) == Ids(ids) + if x == "" then {} else {x};
  }

  /** What the first b blocks of the message at `index` add to a record of calls. */
  function CallsUpTo(m: map<string, nat>, blocks: seq<Block>, b: nat, index: nat): map<string, nat>
    requires b <= |blocks|
  {
    Record(m, Ids(UsesOf(blocks[..b])), index)
  }

  function ResultsUpTo(m: map<string, nat>, blocks: seq<Block>, b: nat, index: nat): map<string, nat>
    requires b <= |blocks|
  {
    Record(m, Ids(ResultsOf(blocks[..b])), index)
  }

  lemma {:induction false} NextBlock(m: map<string, nat>, n: map<string, nat>, blocks: seq<Block>, b: nat, index: nat)
    requires b < |blocks|
    ensures CallsUpTo(m, blocks, b + 1, index)
         == if blocks[b].ToolUse? && blocks[b].id != "" then CallsUpTo(m, blocks, b, index)[blocks[b].id := index]
             else CallsUpTo(m, blocks, b, index)
    ensures ResultsUpTo(n, blocks, b + 1, index)
         == if blocks[b].ToolResult? && blocks[b].toolUseId != ""
             then ResultsUpTo(n, blocks, b, index)[blocks[b].toolUseId := index]
            else ResultsUpTo(n, blocks, b, index)
  {
    UsesSnoc(blocks, b);
    var uses, answers := UsesOf(blocks[..b]), ResultsOf(blocks[..b]);
    assert uses + [] == uses && answers + [] == answers;
    if blocks[b].ToolUse? {
      RecordOne(m, uses, blocks[b].id, index);
    } else if blocks[b].ToolResult? {
      RecordOne(n, answers, blocks[b].toolUseId, index);
    }
  }

  lemma {:induction false} AllBlocks(m: map<string, nat>, n: map<string, nat>, blocks: seq<Block>, index: nat)
    ensures CallsUpTo(m, blocks, 0, index) == m && ResultsUpTo(n, blocks, 0, index) == n
    ensures CallsUpTo(m, blocks, |blocks|, index) == Record(m, Ids(UsesOf(blocks)), index)
    ensures ResultsUpTo(n, blocks, |blocks|, index) == Record(n, Ids(ResultsOf(blocks)), index)
  {
    assert blocks[..|blocks|] == blocks;
  }

  /** Records the tool blocks of the message at `index`. */
  method RecordBlocks(blocks: seq<Block>, index: nat, calls0: map<string, nat>, results0: map<string, nat>)
    returns (calls: map<string, nat>, results: map<string, nat>)
    ensures calls == Record(calls0, Ids(UsesOf(blocks)), index)
    ensures results == Record(results0, Ids(ResultsOf(blocks)), index)
  {
    calls, results := calls0, results0;
    AllBlocks(calls0, results0, blocks, index);
    var b := 0;
    while b < |blocks|
      invariant 0 <= b <= |blocks|
      invariant calls == CallsUpTo(calls0, blocks, b, index)
      invariant results == ResultsUpTo(results0, blocks, b, index)
    {
      NextBlock(calls0, results0, blocks, b, index);
      if blocks[b].ToolUse? && blocks[b].id != "" {
        calls := calls[blocks[b].id := index];
      } else if blocks[b].ToolResult? && blocks[b].toolUseId != "" {
        results := results[blocks[b].toolUseId := index];
      }
      b := b + 1;
    }
  }

  /** The pass itself. The selection is visited in no particular order, which `order`
      reports. */
  method CompleteToolPairs(ms: seq<Message>, selected: set<nat>) returns (kept: set<nat>, order: seq<nat>)
    requires Within(|ms|, selected)
    ensures Elements(order) == selected
    ensures kept == CompletePairs(Calls(ms), Results(ms), order)
  {
    var calls: map<string, nat>, results: map<string, nat> := map[], map[];
    var todo := selected;
    order := [];
    while todo != {}
      invariant todo <= selected && Elements(order) == selected - todo
      invariant calls == LastAt(Calls(ms), order) && results == LastAt(Results(ms), order)
    {
      var index :| index in todo;
      calls, results := RecordBlocks(BlocksOf(ms[index]), index, calls, results);
      LastAtSnoc(Calls(ms), order, index);
      LastAtSnoc(Results(ms), order, index);
      order := order + [index];
      todo := todo - {index};
    }
    kept := selected - Incomplete(calls, results);
  }

  // ---- When one pass is enough ------------------------------------------------------

  /** No id occurs in two messages of the column. */
  ghost predicate Distinct(column: Column) {
    forall i, j, x :: 0 <= i < j < |column| && x in column[i] ==> x !in column[j]
  }

  /** Every call kept has its result kept, and conversely. */
  predicate Closed(calls: Column, results: Column, kept: set<nat>)
    requires Within(|calls|, kept) && Within(|results|, kept)
  {
    Mentioned(calls, kept) == Mentioned(results, kept)
  }

  /** Message i of the selection holds half a pair whose other half was not selected. */
  predicate HoldsOrphan(calls: Column, results: Column, sel: set<nat>, i: nat)
    requires Within(|calls|, sel) && Within(|results|, sel) && i in sel
  {
    !(calls[i] <= Mentioned(results, sel)) || !(results[i] <= Mentioned(calls, sel))
  }

  /** Whatever the ids, a message without an orphan survives the pass. */
  lemma {:induction false} NoOrphanSurvives(calls: Column, results: Column, order: seq<nat>, i: nat)
    requires |calls| == |results| && Within(|calls|, Elements(order)) && i in Elements(order)
    requires !HoldsOrphan(calls, results, Elements(order), i)
    ensures i in CompletePairs(calls, results, order)
  {
    LastAtRecords(calls, order);
    LastAtRecords(results, order);
  }

  /** With distinct ids the pass drops exactly the messages that hold an orphan. */
  lemma {:induction false} PassDropsOrphans(calls: Column, results: Column, order: seq<nat>)
    requires |calls| == |results| && Within(|calls|, Elements(order))
    requires Distinct(calls) && Distinct(results)
    ensures var sel := Elements(order);
      CompletePairs(calls, results, order) == set i | i in sel && !HoldsOrphan(calls, results, sel, i)
  {
    var sel := Elements(order);
    LastAtRecords(calls, order);
    LastAtRecords(results, order);
    var c, r := LastAt(calls, order), LastAt(results, order);
    forall i | i in sel
      ensures i in Incomplete(c, r) <==> HoldsOrphan(calls, results, sel, i)
    {
      if HoldsOrphan(calls, results, sel, i) {
        if !(calls[i] <= Mentioned(results, sel)) {
          var x :| x in calls[i] && x !in Mentioned(results, sel);
          assert x in c && c[x] == i;
        } else {
          var x :| x in results[i] && x !in Mentioned(calls, sel);
          assert x in r && r[x] == i;
        }
      }
    }
  }

  /** A pair lies inside the selection: message i calls x and message j answers it. */
  ghost predicate PairInside(calls: Column, results: Column, sel: set<nat>, i: nat, j: nat, x: string)
    requires Within(|calls|, sel) && Within(|results|, sel)
  {
    i in sel && j in sel && x in calls[i] && x in results[j]
  }

  /** No pair inside the selection has one end in a message that also holds an orphan and
      the other end in a message that does not. */
  ghost predicate NoPairSplit(calls: Column, results: Column, sel: set<nat>)
    requires Within(|calls|, sel) && Within(|results|, sel)
  {
    forall i, j, x :: PairInside(calls, results, sel, i, j, x) ==>
      (HoldsOrphan(calls, results, sel, i) <==> HoldsOrphan(calls, results, sel, j))
  }

  /** Exactly when one pass leaves no half pair behind. */
  lemma {:induction false} OnePassClosedIff(calls: Column, results: Column, order: seq<nat>)
    requires |calls| == |results| && Within(|calls|, Elements(order))
    requires Distinct(calls) && Distinct(results)
    ensures Closed(calls, results, CompletePairs(calls, results, order))
       <==> NoPairSplit(calls, results, Elements(order))
  {
    var sel := Elements(order);
    var kept := CompletePairs(calls, results, order);
    PassDropsOrphans(calls, results, order);
    if Closed(calls, results, kept) {
      forall i, j, x | PairInside(calls, results, sel, i, j, x)
        ensures HoldsOrphan(calls, results, sel, i) <==> HoldsOrphan(calls, results, sel, j)
      {
        assert i in kept ==> x in Mentioned(calls, kept);
        assert j in kept ==> x in Mentioned(results, kept);
      }
    }
    if NoPairSplit(calls, results, sel) {
      forall x
        ensures x in Mentioned(calls, kept) <==> x in Mentioned(results, kept)
      {
        if x in Mentioned(calls, kept) {
          var i :| i in kept && x in calls[i];
          assert x in Mentioned(results, sel);
          var j :| j in sel && x in results[j];
          assert PairInside(calls, results, sel, i, j, x);
        }
        if x in Mentioned(results, kept) {
          var j :| j in kept && x in results[j];
          assert x in Mentioned(calls, sel);
          var i :| i in sel && x in calls[i];
          assert PairInside(calls, results, sel, i, j, x);
        }
      }
    }
  }

  /** Every call is answered by a later message. */
  ghost predicate AnsweredLater(calls: Column, results: Column) {
    forall i, x :: 0 <= i < |calls| && x in calls[i] ==> exists j :: i < j < |results| && x in results[j]
  }

  const MIXED_CALLS: Column := [{"a"}, {"b"}, {}]
  const MIXED_RESULTS: Column := [{}, {}, {"a", "b"}]

  /** A history in which every call is answered later and ids are distinct does not suffice,
      even for its last messages: here the message answering "b" also answers "a", called
      before the cut. */
  lemma {:induction false} MixedAnswersNeedASecondPass(order: seq<nat>)
    requires Elements(order) == {1, 2}
    ensures var calls, results := MIXED_CALLS, MIXED_RESULTS;
      && AnsweredLater(calls, results) && Distinct(calls) && Distinct(results)
      && CompletePairs(calls, results, order) == {1}
      && !Closed(calls, results, {1})
  {
    var calls, results := MIXED_CALLS, MIXED_RESULTS;
    var sel := Elements(order);
    assert AnsweredLater(calls, results) by {
      assert "a" in results[2] && "b" in results[2];
    }
    PassDropsOrphans(calls, results, order);
    assert "a" in results[2] && "a" !in Mentioned(calls, sel);
    assert "b" in Mentioned(results, sel) by { assert 2 in sel && "b" in results[2]; }
    assert !HoldsOrphan(calls, results, sel, 1);
    assert CompletePairs(calls, results, order) == {1};
    assert "b" in Mentioned(calls, {1}) by { assert 1 in {1} && "b" in calls[1]; }
  }

  /** The shape the agent loop keeps: each message answers exactly the calls of the message
      before it, no message both calls and answers, and the last message calls nothing. */
  ghost predicate AnsweredNext(calls: Column, results: Column) {
    && |calls| == |results|
    && (forall i :: 0 <= i < |results| ==> results[i] == if i == 0 then {} else calls[i - 1])
    && (forall i {:trigger calls[i], results[i]} :: 0 <= i < |calls| ==> calls[i] == {} || results[i] == {})
    && (calls != [] ==> calls[|calls| - 1] == {})
  }

  lemma {:induction false} RoundOrphans(calls: Column, results: Column, sel: set<nat>, i: nat)
    requires AnsweredNext(calls, results) && Distinct(calls)
    requires Within(|calls|, sel) && i in sel
    ensures calls[i] != {} ==> (HoldsOrphan(calls, results, sel, i) <==> i + 1 !in sel)
    ensures results[i] != {} ==> (HoldsOrphan(calls, results, sel, i) <==> i - 1 !in sel)
    ensures calls[i] == {} && results[i] == {} ==> !HoldsOrphan(calls, results, sel, i)
  {
    if calls[i] != {} {
      var x :| x in calls[i];
      assert forall j | j in sel && x in results[j] :: x in calls[j - 1] && j == i + 1;
      assert i + 1 in sel ==> results[i + 1] == calls[i];
    }
    if results[i] != {} {
      var x :| x in results[i];
      assert x in calls[i - 1];
      assert forall j | j in sel && x in calls[j] :: j == i - 1;
    }
  }

  /** In that shape one pass suffices for every selection, and the two messages of a tool
      round are kept or dropped together. */
  lemma {:induction false} OnePassClosesRounds(calls: Column, results: Column, order: seq<nat>)
    requires AnsweredNext(calls, results) && Distinct(calls)
    requires Within(|calls|, Elements(order))
    ensures var sel := Elements(order);
      var kept := CompletePairs(calls, results, order);
      && Closed(calls, results, kept)
      && forall i {:trigger i in kept} | i in sel ::
           i in kept <==> (calls[i] != {} ==> i + 1 in sel) && (results[i] != {} ==> i > 0 && i - 1 in sel)
  {
    var sel := Elements(order);
    AnswersDistinct(calls, results);
    PassDropsOrphans(calls, results, order);
    forall i | i in sel
      ensures HoldsOrphan(calls, results, sel, i)
         <==> !((calls[i] != {} ==> i + 1 in sel) && (results[i] != {} ==> i > 0 && i - 1 in sel))
    {
      RoundOrphans(calls, results, sel, i);
    }
    RoundsNotSplit(calls, results, sel);
    OnePassClosedIff(calls, results, order);
  }

  lemma {:induction false} AnswersDistinct(calls: Column, results: Column)
    requires AnsweredNext(calls, results) && Distinct(calls)
    ensures Distinct(results)
  {
    forall i, j, x | 0 <= i < j < |results| && x in results[i]
      ensures x !in results[j]
    {
      assert x in calls[i - 1];
    }
  }

  lemma {:induction false} RoundsNotSplit(calls: Column, results: Column, sel: set<nat>)
    requires AnsweredNext(calls, results) && Distinct(calls)
    requires Within(|calls|, sel)
    ensures NoPairSplit(calls, results, sel)
  {
    forall i, j, x | PairInside(calls, results, sel, i, j, x)
      ensures HoldsOrphan(calls, results, sel, i) <==> HoldsOrphan(calls, results, sel, j)
    {
      assert x in calls[j - 1] && j == i + 1;
      RoundOrphans(calls, results, sel, i);
      RoundOrphans(calls, results, sel, j);
    }
  }

  // ---- Repeated ids -----------------------------------------------------------------

  /** The two messages of every tool round are kept or dropped together. */
  ghost predicate Together(calls: Column, results: Column, kept: set<nat>)
    requires Within(|calls|, kept) && Within(|results|, kept)
  {
    && (forall i {:trigger calls[i]} | i in kept && calls[i] != {} :: i + 1 in kept)
    && (forall i {:trigger results[i]} | i in kept && results[i] != {} :: i > 0 && i - 1 in kept)
  }

  /** Message i of the selection belongs to a round whose other message was not selected. */
  predicate CutOff(calls: Column, results: Column, sel: set<nat>, i: nat)
    requires Within(|calls|, sel) && Within(|results|, sel) && i in sel
  {
    (calls[i] != {} && i + 1 !in sel) || (results[i] != {} && (i == 0 || i - 1 !in sel))
  }

  /** Of the selection, only message i mentions x. */
  ghost predicate OnlyAt(calls: Column, results: Column, sel: set<nat>, i: nat, x: string)
    requires Within(|calls|, sel) && Within(|results|, sel) && i in sel
  {
    && x in calls[i] + results[i]
    && forall j | j in sel && j != i :: x !in calls[j] && x !in results[j]
  }

  /** Each message that was cut off from its round mentions an id the rest of the selection
      does not. */
  ghost predicate CutsCleanly(calls: Column, results: Column, sel: set<nat>)
    requires Within(|calls|, sel) && Within(|results|, sel)
  {
    forall i | i in sel && CutOff(calls, results, sel, i) :: exists x :: OnlyAt(calls, results, sel, i, x)
  }

  lemma {:induction false} CleanCutIsDropped(calls: Column, results: Column, order: seq<nat>, i: nat, x: string)
    requires AnsweredNext(calls, results) && Within(|calls|, Elements(order)) && i in Elements(order)
    requires OnlyAt(calls, results, Elements(order), i, x)
    ensures i !in CompletePairs(calls, results, order)
  {
    LastAtRecords(calls, order);
    LastAtRecords(results, order);
    if x in calls[i] {
      assert LastAt(calls, order)[x] == i && x !in Mentioned(results, Elements(order));
    } else {
      assert LastAt(results, order)[x] == i && x !in Mentioned(calls, Elements(order));
    }
  }

  lemma {:induction false} WholeRoundStays(calls: Column, results: Column, order: seq<nat>, i: nat)
    requires AnsweredNext(calls, results) && Within(|calls|, Elements(order)) && i in Elements(order)
    requires !CutOff(calls, results, Elements(order), i)
    ensures i in CompletePairs(calls, results, order)
  {
    var sel := Elements(order);
    assert calls[i] != {} ==> i + 1 in sel && results[i + 1] == calls[i];
    assert results[i] != {} ==> i - 1 in sel && calls[i - 1] == results[i];
    NoOrphanSurvives(calls, results, order, i);
  }

  lemma {:induction false} CleanCutKeepsRounds(calls: Column, results: Column, order: seq<nat>)
    requires AnsweredNext(calls, results) && Within(|calls|, Elements(order))
    requires CutsCleanly(calls, results, Elements(order))
    ensures Together(calls, results, CompletePairs(calls, results, order))
  {
    var sel, kept := Elements(order), CompletePairs(calls, results, order);
    forall i | i in kept
      ensures !CutOff(calls, results, sel, i)
    {
      if CutOff(calls, results, sel, i) {
        var x :| OnlyAt(calls, results, sel, i, x);
        CleanCutIsDropped(calls, results, order, i, x);
      }
    }
    forall i | i in kept && calls[i] != {}
      ensures i + 1 in kept
    {
      assert results[i + 1] == calls[i];
      WholeRoundStays(calls, results, order, i + 1);
    }
    forall i | i in kept && results[i] != {}
      ensures i > 0 && i - 1 in kept
    {
      assert calls[i - 1] == results[i];
      WholeRoundStays(calls, results, order, i - 1);
    }
  }

  /** Whole rounds are closed. */
  lemma {:induction false} TogetherIsClosed(calls: Column, results: Column, kept: set<nat>)
    requires AnsweredNext(calls, results) && Within(|calls|, kept) && Together(calls, results, kept)
    ensures Closed(calls, results, kept)
  {
    forall x
      ensures x in Mentioned(calls, kept) <==> x in Mentioned(results, kept)
    {
      if x in Mentioned(calls, kept) {
        var i :| i in kept && x in calls[i];
        assert i + 1 in kept && x in results[i + 1];
      }
      if x in Mentioned(results, kept) {
        var j :| j in kept && x in results[j];
        assert j - 1 in kept && x in calls[j - 1];
      }
    }
  }

  lemma {:induction false} FirstIsOverwritten(column: Column, i: nat, rest: seq<nat>)
    requires i < |column| && Within(|column|, Elements(rest))
    ensures Elements([i] + rest) == Elements(rest) + {i}
    ensures forall x | x in LastAt(column, [i] + rest) && x in Mentioned(column, Elements(rest)) ::
      LastAt(column, [i] + rest)[x] in Elements(rest)
    decreases |rest|
  {
    var order := [i] + rest;
    assert Elements(order) == Elements(rest) + {i} by {
      assert order[0] == i && forall k :: 0 <= k < |rest| ==> order[k + 1] == rest[k];
    }
    if rest != [] {
      var n := |rest| - 1;
      var init := rest[..n];
      assert rest == init + [rest[n]] && order == ([i] + init) + [rest[n]];
      assert Elements(rest) == Elements(init) + {rest[n]};
      FirstIsOverwritten(column, i, init);
      LastAtSnoc(column, [i] + init, rest[n]);
      forall x | x in LastAt(column, order) && x in Mentioned(column, Elements(rest))
        ensures LastAt(column, order)[x] in Elements(rest)
      {
        if x !in column[rest[n]] {
          assert x in Mentioned(column, Elements(init));
        }
      }
    }
  }

  lemma {:induction false} Enumerate(s: set<nat>) returns (order: seq<nat>)
    ensures Elements(order) == s
  {
    if s == {} {
      order := [];
    } else {
      var x :| x in s;
      var rest := Enumerate(s - {x});
      order := rest + [x];
      assert order[|rest|] == x;
      assert Elements(order) == Elements(rest) + {x};
    }
  }

  lemma {:induction false} FirstIsRecorded(column: Column, i: nat, rest: seq<nat>, x: string)
    requires i < |column| && Within(|column|, Elements(rest)) && i !in Elements(rest)
    requires Elements([i] + rest) == Elements(rest) + {i}
    requires x in LastAt(column, [i] + rest) && LastAt(column, [i] + rest)[x] == i
    ensures x in column[i] && forall j | j in Elements(rest) :: x !in column[j]
  {
    FirstIsOverwritten(column, i, rest);
    LastAtRecords(column, [i] + rest);
    assert x !in Mentioned(column, Elements(rest));
  }

  lemma {:induction false} MentionedElsewhere(calls: Column, results: Column, sel: set<nat>, i: nat, x: string)
    requires Within(|calls|, sel) && Within(|results|, sel) && i in sel && !OnlyAt(calls, results, sel, i, x)
    ensures x in calls[i] && (forall j | j in sel && j != i :: x !in calls[j]) ==> x in Mentioned(results, sel)
    ensures x in results[i] && (forall j | j in sel && j != i :: x !in results[j]) ==> x in Mentioned(calls, sel)
  {
  }

  /** Visited first, a message all of whose ids the rest mentions is kept. */
  lemma {:induction false} VisitedFirstStays(calls: Column, results: Column, i: nat, rest: seq<nat>)
    requires AnsweredNext(calls, results) && i < |calls| && Within(|calls|, Elements(rest)) && i !in Elements(rest)
    requires forall x :: !OnlyAt(calls, results, Elements(rest) + {i}, i, x)
    ensures Elements([i] + rest) == Elements(rest) + {i} && i in CompletePairs(calls, results, [i] + rest)
  {
    var order, sel := [i] + rest, Elements(rest) + {i};
    FirstIsOverwritten(calls, i, rest);
    var c, r := LastAt(calls, order), LastAt(results, order);
    LastAtRecords(calls, order);
    LastAtRecords(results, order);
    forall x | x in c && c[x] == i
      ensures x in r
    {
      FirstIsRecorded(calls, i, rest, x);
      MentionedElsewhere(calls, results, sel, i, x);
    }
    forall x | x in r && r[x] == i
      ensures x in c
    {
      FirstIsRecorded(results, i, rest, x);
      MentionedElsewhere(calls, results, sel, i, x);
    }
  }

  /** The two messages of every tool round are kept or dropped together, in whatever order
      the selection is visited, exactly when the selection is cut cleanly. */
  lemma {:induction false} RoundsStayWholeIff(calls: Column, results: Column, sel: set<nat>)
    requires AnsweredNext(calls, results) && Within(|calls|, sel)
    ensures (forall order: seq<nat> | Elements(order) == sel ::
        Together(calls, results, CompletePairs(calls, results, order)))
       <==> CutsCleanly(calls, results, sel)
  {
    if CutsCleanly(calls, results, sel) {
      forall order: seq<nat> | Elements(order) == sel
        ensures Together(calls, results, CompletePairs(calls, results, order))
      {
        CleanCutKeepsRounds(calls, results, order);
      }
    } else {
      var i :| i in sel && CutOff(calls, results, sel, i) && forall x :: !OnlyAt(calls, results, sel, i, x);
      var rest := Enumerate(sel - {i});
      assert Elements(rest) + {i} == sel;
      VisitedFirstStays(calls, results, i, rest);
      assert !Together(calls, results, CompletePairs(calls, results, [i] + rest));
    }
  }

  /** Distinct ids make every cut clean. */
  lemma {:induction false} DistinctCutsCleanly(calls: Column, results: Column, sel: set<nat>)
    requires AnsweredNext(calls, results) && Distinct(calls) && Within(|calls|, sel)
    ensures CutsCleanly(calls, results, sel)
  {
    forall i | i in sel && CutOff(calls, results, sel, i)
      ensures exists x :: OnlyAt(calls, results, sel, i, x)
    {
      if calls[i] != {} && i + 1 !in sel {
        var x :| x in calls[i];
        assert OnlyAt(calls, results, sel, i, x);
      } else {
        var x :| x in results[i];
        assert x in calls[i - 1];
        assert OnlyAt(calls, results, sel, i, x);
      }
    }
  }

  /** The selection cuts exactly one tool round, keeping only its answer, at k. */
  ghost predicate CutsOneRound(calls: Column, results: Column, sel: set<nat>, k: nat)
    requires Within(|calls|, sel) && Within(|results|, sel)
  {
    && k in sel && results[k] != {} && k - 1 !in sel
    && (forall i {:trigger calls[i]} | i in sel && calls[i] != {} :: i + 1 in sel)
    && (forall i {:trigger results[i]} | i in sel && i != k && results[i] != {} :: i - 1 in sel)
  }

  lemma {:induction false} CutAnswerIsDropped(calls: Column, results: Column, order: seq<nat>, k: nat)
    requires AnsweredNext(calls, results)
    requires Within(|calls|, Elements(order)) && CutsOneRound(calls, results, Elements(order), k)
    requires !(results[k] <= Mentioned(calls, Elements(order)))
    ensures k !in CompletePairs(calls, results, order)
  {
    var sel := Elements(order);
    var x :| x in results[k] && x !in Mentioned(calls, sel);
    LastAtRecords(calls, order);
    LastAtRecords(results, order);
    assert forall i {:trigger results[i]} | i in sel && i != k && results[i] != {} ::
        results[i] <= Mentioned(calls, sel);
    assert LastAt(results, order)[x] == k;
  }

  /** Without distinct ids, an answer whose call was cut off is dropped exactly when one of
      its ids is not called again inside the selection. */
  lemma {:induction false} CutAnswerDroppedIff(calls: Column, results: Column, order: seq<nat>, k: nat)
    requires AnsweredNext(calls, results)
    requires Within(|calls|, Elements(order)) && CutsOneRound(calls, results, Elements(order), k)
    ensures Together(calls, results, CompletePairs(calls, results, order))
       <==> !(results[k] <= Mentioned(calls, Elements(order)))
  {
    var sel, kept := Elements(order), CompletePairs(calls, results, order);
    assert calls[k] == {};
    if results[k] <= Mentioned(calls, sel) {
      NoOrphanSurvives(calls, results, order, k);
    } else {
      CutAnswerIsDropped(calls, results, order, k);
      forall i | i in sel && i != k
        ensures i in kept
      {
        assert !CutOff(calls, results, sel, i);
        WholeRoundStays(calls, results, order, i);
      }
      assert kept == sel - {k};
      assert forall i | i in kept && calls[i] != {} :: i + 1 != k;
    }
  }

  /** A fallback id such as "tool-1" repeats from round to round: here the answer of an
      earlier round survives without its call. */
  lemma {:induction false} RepeatedIdLeavesAnOrphan(id: string, order: seq<nat>)
    requires Elements(order) == {1, 2, 3}
    ensures var calls: Column, results: Column := [{id}, {}, {id}, {}], [{}, {id}, {}, {id}];
      && AnsweredNext(calls, results)
      && 1 in CompletePairs(calls, results, order)
      && 0 !in CompletePairs(calls, results, order)
  {
    var calls: Column, results: Column := [{id}, {}, {id}, {}], [{}, {id}, {}, {id}];
    assert id in Mentioned(calls, Elements(order)) by {
      assert id in calls[2];
    }
    NoOrphanSurvives(calls, results, order, 1);
  }
}
