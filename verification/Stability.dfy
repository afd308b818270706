/** Compacting a replacement history again: exactly when the second checkpoint keeps every
    message of the first and only swaps the summary. */
module Stability {
  import opened Messages
  import opened Selection
  import opened ToolPairs
  import opened Compaction
  import History

  // ---- A settled checkpoint ---------------------------------------------------------

  /** The message's tool blocks all refer to the given ids. */
  predicate Anchored(ids: set<string>, m: Message) {
    Ids(UseIds(m)) <= ids && Ids(ResIds(m)) <= ids
  }

  function Loose(ids: set<string>): Message -> bool {
    m => !Anchored(ids, m)
  }

  function AtLeastZero(n: int): nat {
    if n > 0 then n else 0
  }

  /** `r` is a checkpoint: messages that are not summaries, then one summary. The window that
      starts at p fits the tail budget. */
  ghost predicate Checkpoint(b: Budgets, r: seq<Message>, p: nat) {
    && p < |r| && IsSummary(r[|r| - 1])
    && (forall i :: 0 <= i < |r| - 1 ==> !IsSummary(r[i]))
    && CostWhere(b.Lens(), r, Any(), p, |r| - 1) <= AtLeastZero(b.tail)
  }

  predicate MentionedIn(column: Column, x: string, lo: nat, hi: nat)
    requires hi <= |column|
  {
    exists i :: lo <= i < hi && x in column[i]
  }

  /** The checkpoint is settled on `ids`, the tool rounds of its tail: both ends of each are
      in the window, and whatever is not anchored there was typed by the user and fits the
      user budget. */
  ghost predicate Settled(b: Budgets, r: seq<Message>, p: nat, ids: set<string>) {
    var q := |r| - 1;
    && Checkpoint(b, r, p)
    && (forall i :: 0 <= i < p ==> IsRealUser(r[i]))
    && (forall i :: p <= i < q ==> Anchored(ids, r[i]) || IsRealUser(r[i]))
    && (forall x | x in ids :: MentionedIn(Calls(r), x, p, q) && MentionedIn(Results(r), x, p, q))
    && CostWhere(b.Lens(), r, Any(), 0, p) + CostWhere(b.Lens(), r, Loose(ids), p, q) <= AtLeastZero(b.users)
  }

  lemma {:induction false} CutAfterSummary(v: View, r: seq<Message>, p: nat, budget: int)
    requires p < |r| && v.summary(r[|r| - 1]) && forall i | 0 <= i < |r| - 1 :: !v.summary(r[i])
    requires CostWhere(v, r, Any(), p, |r| - 1) <= AtLeastZero(budget)
    ensures var k := RecentCut(v, r, |r|, budget);
      k <= p && forall i: nat :: i in Recent(v, r, budget) <==> k <= i < |r| - 1
  {
    assert RecentCut(v, r, |r|, budget) == RecentCut(v, r, |r| - 1, budget);
    if p < |r| - 1 {
      CutCoversFittingTail(v, r, p, |r| - 1, budget);
    }
  }

  /** The second scan takes the whole window and stops somewhere in the older part. */
  lemma {:induction false} SecondTail(b: Budgets, r: seq<Message>, p: nat) returns (k: nat)
    requires Checkpoint(b, r, p)
    ensures k <= p
    ensures forall i: nat :: i in RecentTail(b, r) <==> k <= i < |r| - 1
  {
    k := RecentCut(b.Lens(), r, |r|, b.tail);
    CutAfterSummary(b.Lens(), r, p, b.tail);
  }

  /** A message of the window that is anchored in the tail survives the second repair. */
  lemma {:induction false} AnchoredSurvives(b: Budgets, r: seq<Message>, p: nat, ids: set<string>, order: seq<nat>,
        j: nat)
    requires Settled(b, r, p, ids) && VisitsTail(b, r, order)
    requires p <= j < |r| - 1 && Anchored(ids, r[j])
    ensures j in Tail(b, r, order)
  {
    var k := SecondTail(b, r, p);
    forall x | x in ids
      ensures x in Mentioned(Calls(r), Elements(order)) && x in Mentioned(Results(r), Elements(order))
    {
    }
    NoOrphanSurvives(Calls(r), Results(r), order, j);
  }

  lemma {:induction false} PickedCostWhere(v: View, ms: seq<Message>, which: Message -> bool, c: set<nat>, lo: nat,
        hi: nat)
    requires lo <= hi <= |ms|
    requires forall i: nat :: lo <= i < hi && i in c ==> which(ms[i])
    ensures CostOf(v, Pick(ms, c, lo, hi)) <= CostWhere(v, ms, which, lo, hi)
  {
    if lo < hi {
      PickedCostWhere(v, ms, which, c, lo, hi - 1);
      PickCostStep(v, ms, c, lo, hi);
    }
  }

  lemma {:induction false} CandidatesCost(v: View, r: seq<Message>, p: nat, q: nat, ids: set<string>, all: set<nat>)
    requires p <= q <= |r| && (forall i: nat | i in all :: i < q)
    requires forall i: nat | i in all && p <= i :: Loose(ids)(r[i])
    ensures CostOf(v, Pick(r, all, 0, |r|)) <= CostWhere(v, r, Any(), 0, p) + CostWhere(v, r, Loose(ids), p, q)
  {
    var first, second := Pick(r, all, 0, p), Pick(r, all, p, q);
    assert Pick(r, all, 0, |r|) == first + second by {
      PickSplit(r, all, 0, p, q);
      PickSplit(r, all, 0, q, |r|);
      PickNone(r, all, q, |r|);
    }
    PickedCostWhere(v, r, Any(), all, 0, p);
    PickedCostWhere(v, r, Loose(ids), all, p, q);
    CostOfConcat(v, first, second);
  }

  /** When the candidates outside a tail fit the budget as a whole, all of them are kept. */
  lemma {:induction false} UsersFit(v: View, r: seq<Message>, p: nat, ids: set<string>, tail: set<nat>, budget: int)
    requires p < |r| && !v.user(r[|r| - 1])
    requires forall j: nat :: p <= j < |r| - 1 && j !in tail ==> !Anchored(ids, r[j])
    requires CostWhere(v, r, Any(), 0, p) + CostWhere(v, r, Loose(ids), p, |r| - 1) <= AtLeastZero(budget)
    ensures UserCut(v, r, tail, |r|, 0, budget) == 0
  {
    var q, all := |r| - 1, CandidatesFrom(v, r, tail, 0);
    CandidatesCost(v, r, p, q, ids, all);
    forall i: nat | i < |r| && Candidate(v, r, tail, i)
      ensures CostOf(v, Pick(r, all, 0, |r|)) <= budget
    {
      PickCostPositive(v, r, all, i, |r|);
    }
    AllCandidatesFit(v, r, tail, |r|, 0, budget);
  }

  lemma {:induction false} SecondUsersFit(b: Budgets, r: seq<Message>, p: nat, ids: set<string>, tail: set<nat>)
    requires Settled(b, r, p, ids)
    requires forall j: nat :: p <= j < |r| - 1 && j !in tail ==> !Anchored(ids, r[j])
    ensures UserCut(b.Lens(), r, tail, |r|, 0, b.users) == 0
  {
    UsersFit(b.Lens(), r, p, ids, tail, b.users);
  }

  /** Everything a settled checkpoint holds is kept by the next one. */
  lemma {:induction false} SettledIsStable(b: Budgets, r: seq<Message>, p: nat, ids: set<string>, order: seq<nat>,
        summary: string)
    requires Settled(b, r, p, ids) && VisitsTail(b, r, order)
    ensures Replacement(b, r, order, summary) == r[..|r| - 1] + [SummaryMessage(summary)]
  {
    var q, tail, kept := |r| - 1, Tail(b, r, order), Kept(b, r, order);
    forall j: nat | j < q
      ensures j in tail || IsRealUser(r[j])
      ensures j !in tail && j >= p ==> !Anchored(ids, r[j])
    {
      if j >= p && Anchored(ids, r[j]) {
        AnchoredSurvives(b, r, p, ids, order, j);
      }
    }
    SecondUsersFit(b, r, p, ids, tail);
    assert forall j: nat | j < q :: j in kept;
    assert q !in kept by {
      KeptAreNotSummaries(b, r, order);
    }
    ReplacementIsPicked(b, r, order, summary);
    PickAll(r, kept, q);
    assert Pick(r, kept, 0, |r|) == Pick(r, kept, 0, q);
  }

  // ---- What the first checkpoint keeps ----------------------------------------------

  /** `r` is the picture of `ms` left by a checkpoint that kept `tail` and `users`: the part
      of the recent window, which starts at k in `ms`, starts at p in `r`. */
  ghost predicate Picture(b: Budgets, ms: seq<Message>, tail: set<nat>, users: set<nat>, k: nat, r: seq<Message>,
        p: nat) {
    && k <= |ms|
    && (forall i | i in tail :: k <= i < |ms| && !IsSummary(ms[i]))
    && (forall i | i in users :: i < |ms| && IsRealUser(ms[i]))
    && CostOf(b.Lens(), Pick(ms, From(b.Lens(), ms, k), k, |ms|)) <= AtLeastZero(b.tail)
    && CostOf(b.Lens(), Pick(ms, users, 0, |ms|)) <= AtLeastZero(b.users)
    && var older, window := Pick(ms, users + tail, 0, k), Pick(ms, users + tail, k, |ms|);
    && p == |older| && |r| == p + |window| + 1 && IsSummary(r[|r| - 1])
    && (forall t :: 0 <= t < |older| ==> r[t] == older[t])
    && (forall t :: 0 <= t < |window| ==> r[p + t] == window[t])
  }

  lemma {:induction false} WindowCost(v: View, ms: seq<Message>, budget: int)
    ensures var k := RecentCut(v, ms, |ms|, budget); CostOf(v, Pick(ms, From(v, ms, k), k, |ms|)) <= AtLeastZero(budget)
  {
    var k := RecentCut(v, ms, |ms|, budget);
    if budget > 0 {
      RecentIsMaximal(v, ms, |ms|, budget);
    } else {
      NoBudgetNoTail(v, ms, |ms|, budget);
      PickNone(ms, From(v, ms, k), k, |ms|);
    }
  }

  lemma {:induction false} TypedCost(v: View, ms: seq<Message>, excluded: set<nat>, budget: int)
    ensures CostOf(v, Pick(ms, Users(v, ms, excluded, budget), 0, |ms|)) <= AtLeastZero(budget)
  {
    UsersWithinBudget(v, ms, excluded, budget);
    if budget <= 0 {
      PickNone(ms, Users(v, ms, excluded, budget), 0, |ms|);
    }
  }

  lemma {:induction false} PartsAt<T>(a: seq<T>, b: seq<T>, last: T, whole: seq<T>)
    requires whole == a + b + [last]
    ensures |whole| == |a| + |b| + 1 && whole[|whole| - 1] == last
    ensures forall t :: 0 <= t < |a| ==> whole[t] == a[t]
    ensures forall t :: 0 <= t < |b| ==> whole[|a| + t] == b[t]
  {
  }

  lemma {:induction false} ReplacementIsPicture(b: Budgets, ms: seq<Message>, order: seq<nat>, summary: string)
      returns (k: nat, p: nat)
    requires VisitsTail(b, ms, order)
    ensures Picture(b, ms, Tail(b, ms, order), OlderUsers(b, ms, order), k, Replacement(b, ms, order, summary), p)
  {
    var v, tail, users := b.Lens(), Tail(b, ms, order), OlderUsers(b, ms, order);
    var r, last := Replacement(b, ms, order, summary), SummaryMessage(summary);
    k := RecentCut(v, ms, |ms|, b.tail);
    p := |Pick(ms, users + tail, 0, k)|;
    ReplacementParts(b, ms, order, summary, k);
    KeptAreNotSummaries(b, ms, order);
    TailIsRecent(b, ms, order);
    SummaryIsRecognised(summary);
    WindowCost(v, ms, b.tail);
    TypedCost(v, ms, tail, b.users);
    MakePicture(b, ms, tail, users, k, r, last);
  }

  lemma {:induction false} TailIsRecent(b: Budgets, ms: seq<Message>, order: seq<nat>)
    requires VisitsTail(b, ms, order)
    ensures forall i | i in Tail(b, ms, order) :: RecentCut(b.Lens(), ms, |ms|, b.tail) <= i < |ms|
  {
  }

  lemma {:induction false} MakePicture(b: Budgets, ms: seq<Message>, tail: set<nat>, users: set<nat>, k: nat,
        r: seq<Message>, last: Message)
    requires k <= |ms| && (forall i | i in tail :: k <= i < |ms|)
    requires forall i | i in tail :: i < |ms| && !IsSummary(ms[i])
    requires forall i | i in users :: i < |ms| && IsRealUser(ms[i])
    requires CostOf(b.Lens(), Pick(ms, From(b.Lens(), ms, k), k, |ms|)) <= AtLeastZero(b.tail)
    requires CostOf(b.Lens(), Pick(ms, users, 0, |ms|)) <= AtLeastZero(b.users)
    requires r == Pick(ms, users + tail, 0, k) + Pick(ms, users + tail, k, |ms|) + [last] && IsSummary(last)
    ensures Picture(b, ms, tail, users, k, r, |Pick(ms, users + tail, 0, k)|)
  {
    PartsAt(Pick(ms, users + tail, 0, k), Pick(ms, users + tail, k, |ms|), last, r);
  }

  lemma {:induction false} ReplacementParts(b: Budgets, ms: seq<Message>, order: seq<nat>, summary: string, k: nat)
    requires VisitsTail(b, ms, order) && k <= |ms|
    ensures var kept := OlderUsers(b, ms, order) + Tail(b, ms, order);
      Replacement(b, ms, order, summary) == Pick(ms, kept, 0, k) + Pick(ms, kept, k, |ms|) + [SummaryMessage(summary)]
  {
    ReplacementIsPicked(b, ms, order, summary);
    PickSplit(ms, Kept(b, ms, order), 0, k, |ms|);
  }

  /** Where a message of the picture comes from. */
  lemma {:induction false} OriginOf(b: Budgets, ms: seq<Message>, tail: set<nat>, users: set<nat>, k: nat,
        r: seq<Message>, p: nat, j: nat) returns (i: nat)
    requires Picture(b, ms, tail, users, k, r, p) && j < |r| - 1
    ensures i < |ms| && i in users + tail && ms[i] == r[j] && (j < p <==> i < k)
  {
    if j < p {
      i := PickOrigin(ms, users + tail, 0, k, j);
    } else {
      i := PickOrigin(ms, users + tail, k, |ms|, j - p);
      assert r[p + (j - p)] == r[j];
    }
  }

  /** Where a message of the tail went. */
  lemma {:induction false} PlaceOf(b: Budgets, ms: seq<Message>, tail: set<nat>, users: set<nat>, k: nat,
        r: seq<Message>, p: nat, i: nat) returns (j: nat)
    requires Picture(b, ms, tail, users, k, r, p) && i in tail
    ensures i < |ms| && p <= j < |r| - 1 && r[j] == ms[i]
  {
    var t := PickPlace(ms, users + tail, k, |ms|, i);
    j := p + t;
  }

  lemma {:induction false} PlacedCost(v: View, ms: seq<Message>, kept: set<nat>, users: set<nat>,
        which: Message -> bool, r: seq<Message>, off: nat, lo: nat, hi: nat)
    requires lo <= hi <= |ms|
    requires off + |Pick(ms, kept, lo, hi)| <= |r|
    requires forall t :: 0 <= t < |Pick(ms, kept, lo, hi)| ==> r[off + t] == Pick(ms, kept, lo, hi)[t]
    requires forall i: nat :: lo <= i < hi && i in kept && which(ms[i]) ==> i in users
    ensures CostWhere(v, r, which, off, off + |Pick(ms, kept, lo, hi)|) <= CostOf(v, Pick(ms, users, lo, hi))
  {
    if lo < hi {
      var before, after := Pick(ms, kept, lo, hi - 1), Pick(ms, kept, lo, hi);
      assert forall t :: 0 <= t < |before| ==> after[t] == before[t];
      PlacedCost(v, ms, kept, users, which, r, off, lo, hi - 1);
      PickCostStep(v, ms, users, lo, hi);
      if hi - 1 in kept {
        assert after[|before|] == ms[hi - 1] && r[off + |before|] == ms[hi - 1];
      }
    }
  }

  lemma {:induction false} PictureIsCheckpoint(b: Budgets, ms: seq<Message>, tail: set<nat>, users: set<nat>, k: nat,
        r: seq<Message>, p: nat)
    requires Picture(b, ms, tail, users, k, r, p)
    ensures Checkpoint(b, r, p)
  {
    forall j: nat | j < |r| - 1
      ensures !IsSummary(r[j])
    {
      var i := OriginOf(b, ms, tail, users, k, r, p, j);
    }
    WindowFits(b.Lens(), ms, users + tail, k, r, p);
  }

  /** The window of a picture costs no more than the window it was picked from. */
  lemma {:induction false} WindowFits(v: View, ms: seq<Message>, kept: set<nat>, k: nat, r: seq<Message>, p: nat)
    requires k <= |ms| && |r| == p + |Pick(ms, kept, k, |ms|)| + 1
    requires forall t :: 0 <= t < |Pick(ms, kept, k, |ms|)| ==> r[p + t] == Pick(ms, kept, k, |ms|)[t]
    requires forall i | i in kept && k <= i < |ms| :: !v.summary(ms[i])
    ensures CostWhere(v, r, Any(), p, |r| - 1) <= CostOf(v, Pick(ms, From(v, ms, k), k, |ms|))
  {
    PlacedCost(v, ms, kept, From(v, ms, k), Any(), r, p, k, |ms|);
  }

  lemma {:induction false} OlderCost(v: View, ms: seq<Message>, kept: set<nat>, users: set<nat>, k: nat,
        r: seq<Message>)
    requires k <= |ms| && |Pick(ms, kept, 0, k)| <= |r|
    requires forall t :: 0 <= t < |Pick(ms, kept, 0, k)| ==> r[t] == Pick(ms, kept, 0, k)[t]
    requires forall i: nat :: i < k && i in kept ==> i in users
    ensures CostWhere(v, r, Any(), 0, |Pick(ms, kept, 0, k)|) <= CostOf(v, Pick(ms, users, 0, k))
  {
    PlacedCost(v, ms, kept, users, Any(), r, 0, 0, k);
  }

  lemma {:induction false} LooseCost(b: Budgets, ms: seq<Message>, tail: set<nat>, users: set<nat>, k: nat,
        r: seq<Message>, p: nat, ids: set<string>)
    requires Picture(b, ms, tail, users, k, r, p)
    requires forall i | i in tail :: Anchored(ids, ms[i])
    ensures CostWhere(b.Lens(), r, Loose(ids), p, |r| - 1) <= CostOf(b.Lens(), Pick(ms, users, k, |ms|))
  {
    PlacedCost(b.Lens(), ms, users + tail, users, Loose(ids), r, p, k, |ms|);
  }

  /** Whatever is not anchored in the tail fits the user budget. */
  lemma {:induction false} TypedFits(b: Budgets, ms: seq<Message>, tail: set<nat>, users: set<nat>, k: nat,
        r: seq<Message>, p: nat, ids: set<string>)
    requires Picture(b, ms, tail, users, k, r, p)
    requires forall i | i in tail :: Anchored(ids, ms[i])
    ensures CostWhere(b.Lens(), r, Any(), 0, p) + CostWhere(b.Lens(), r, Loose(ids), p, |r| - 1) <= AtLeastZero(b.users)
  {
    OlderCost(b.Lens(), ms, users + tail, users, k, r);
    LooseCost(b, ms, tail, users, k, r, p, ids);
    PickSplit(ms, users, 0, k, |ms|);
    CostOfConcat(b.Lens(), Pick(ms, users, 0, k), Pick(ms, users, k, |ms|));
  }

  lemma {:induction false} ClosedTailSettles(b: Budgets, ms: seq<Message>, tail: set<nat>, users: set<nat>, k: nat,
        r: seq<Message>, p: nat)
    requires Picture(b, ms, tail, users, k, r, p)
    requires Closed(Calls(ms), Results(ms), tail)
    ensures Settled(b, r, p, Mentioned(Calls(ms), tail))
  {
    var ids := Mentioned(Calls(ms), tail);
    forall i | i in tail
      ensures Anchored(ids, ms[i])
    {
      assert Calls(ms)[i] <= ids && Results(ms)[i] <= Mentioned(Results(ms), tail);
    }
    PictureIsCheckpoint(b, ms, tail, users, k, r, p);
    TypedFits(b, ms, tail, users, k, r, p, ids);
    forall j: nat | j < |r| - 1
      ensures j < p ==> IsRealUser(r[j])
      ensures Anchored(ids, r[j]) || IsRealUser(r[j])
    {
      var i := OriginOf(b, ms, tail, users, k, r, p, j);
    }
    forall x | x in ids
      ensures MentionedIn(Calls(r), x, p, |r| - 1) && MentionedIn(Results(r), x, p, |r| - 1)
    {
      var i :| i in tail && x in Calls(ms)[i];
      var j := PlaceOf(b, ms, tail, users, k, r, p, i);
      assert x in Calls(r)[j];
      var i' :| i' in tail && x in Results(ms)[i'];
      var j' := PlaceOf(b, ms, tail, users, k, r, p, i');
      assert x in Results(r)[j'];
    }
  }

  // ---- Exactly when a second checkpoint changes nothing -----------------------------

  /** What the user types carries no tool call. */
  ghost predicate TypedHaveNoCalls(ms: seq<Message>) {
    forall i :: 0 <= i < |ms| && IsRealUser(ms[i]) ==> UseIds(ms[i]) == []
  }

  /** The ids seen by the second repair are those of the first checkpoint's tail. */
  lemma {:induction false} SecondRepairSeesTail(b: Budgets, ms: seq<Message>, tail: set<nat>, users: set<nat>, k: nat,
        r: seq<Message>, p: nat, sel: set<nat>, k2: nat)
    requires Picture(b, ms, tail, users, k, r, p) && TypedHaveNoCalls(ms)
    requires k2 <= p && forall i: nat :: i in sel <==> k2 <= i < |r| - 1
    ensures Mentioned(Calls(r), sel) == Mentioned(Calls(ms), tail)
    ensures Mentioned(Results(r), sel) == Mentioned(Results(ms), tail)
  {
    forall j | j in sel
      ensures Calls(r)[j] <= Mentioned(Calls(ms), tail) && Results(r)[j] <= Mentioned(Results(ms), tail)
    {
      var i := OriginOf(b, ms, tail, users, k, r, p, j);
      if i !in tail {
        RealUserHasNoResults(ms[i]);
      }
    }
    forall i | i in tail
      ensures Calls(ms)[i] <= Mentioned(Calls(r), sel) && Results(ms)[i] <= Mentioned(Results(r), sel)
    {
      var j := PlaceOf(b, ms, tail, users, k, r, p, i);
      assert j in sel;
    }
  }

  /** A half round inside a selection costs the pass a message that holds a tool block. */
  lemma {:induction false} HalfRoundIsDropped(calls: Column, results: Column, order: seq<nat>) returns (j: nat)
    requires |calls| == |results| && Within(|calls|, Elements(order))
    requires Mentioned(calls, Elements(order)) != Mentioned(results, Elements(order))
    ensures j in Elements(order) && j !in CompletePairs(calls, results, order)
    ensures calls[j] != {} || results[j] != {}
  {
    LastAtRecords(calls, order);
    LastAtRecords(results, order);
    var c, r := LastAt(calls, order), LastAt(results, order);
    if x :| x in c && x !in r {
      j := c[x];
    } else {
      var x :| x in r && x !in c;
      j := r[x];
    }
  }

  lemma {:induction false} PickMisses(ms: seq<Message>, keep: set<nat>, j: nat, hi: nat)
    requires j < hi <= |ms| && j !in keep
    ensures |Pick(ms, keep, 0, hi)| < hi
  {
    if j < hi - 1 {
      PickMisses(ms, keep, j, hi - 1);
    }
  }

  lemma {:induction false} FewerKept(b: Budgets, r: seq<Message>, order: seq<nat>, summary: string, j: nat)
    requires VisitsTail(b, r, order)
    requires j < |r| - 1 && j !in Tail(b, r, order) && !IsRealUser(r[j]) && IsSummary(r[|r| - 1])
    ensures |Replacement(b, r, order, summary)| < |r|
  {
    KeptAreNotSummaries(b, r, order);
    ReplacementIsPicked(b, r, order, summary);
    FewerPicked(r, Kept(b, r, order), j);
  }

  lemma {:induction false} FewerPicked(r: seq<Message>, kept: set<nat>, j: nat)
    requires j < |r| - 1 && j !in kept && |r| - 1 !in kept
    ensures |Pick(r, kept, 0, |r|)| + 1 < |r|
  {
    var q := |r| - 1;
    PickMisses(r, kept, j, q);
    assert Pick(r, kept, 0, |r|) == Pick(r, kept, 0, q) + [];
  }

  /** A round left half open in the tail costs the second checkpoint a message. */
  lemma {:induction false} OpenTailLosesAMessage(b: Budgets, ms: seq<Message>, tail: set<nat>, users: set<nat>, k: nat,
        r: seq<Message>, p: nat, order2: seq<nat>, summary2: string)
    requires Picture(b, ms, tail, users, k, r, p) && TypedHaveNoCalls(ms)
    requires VisitsTail(b, r, order2)
    requires !Closed(Calls(ms), Results(ms), tail)
    ensures |Replacement(b, r, order2, summary2)| < |r|
  {
    PictureIsCheckpoint(b, ms, tail, users, k, r, p);
    var k2 := SecondTail(b, r, p);
    SecondRepairSeesTail(b, ms, tail, users, k, r, p, Elements(order2), k2);
    var j := HalfRoundIsDropped(Calls(r), Results(r), order2);
    var i := OriginOf(b, ms, tail, users, k, r, p, j);
    if IsRealUser(r[j]) {
      RealUserHasNoResults(r[j]);
    }
    FewerKept(b, r, order2, summary2, j);
  }

  /** A second checkpoint under the same budgets keeps every message of the first, in order,
      and only swaps the summary, whatever the summaries and the visiting orders, whenever
      the repaired tail holds no half round. */
  lemma {:induction false} ClosedTailIsStable(b: Budgets, ms: seq<Message>, order: seq<nat>, summary: string,
        order2: seq<nat>, summary2: string)
    requires VisitsTail(b, ms, order) && VisitsTail(b, Replacement(b, ms, order, summary), order2)
    requires Closed(Calls(ms), Results(ms), Tail(b, ms, order))
    ensures var r := Replacement(b, ms, order, summary);
      r != [] && Replacement(b, r, order2, summary2) == r[..|r| - 1] + [SummaryMessage(summary2)]
  {
    var r := Replacement(b, ms, order, summary);
    var k, p := ReplacementIsPicture(b, ms, order, summary);
    ClosedTailSettles(b, ms, Tail(b, ms, order), OlderUsers(b, ms, order), k, r, p);
    SettledIsStable(b, r, p, Mentioned(Calls(ms), Tail(b, ms, order)), order2, summary2);
  }

  /** When typed messages carry no tool calls, that condition is also necessary. */
  lemma {:induction false} StableIff(b: Budgets, ms: seq<Message>, order: seq<nat>, summary: string, order2: seq<nat>,
        summary2: string)
    requires VisitsTail(b, ms, order) && VisitsTail(b, Replacement(b, ms, order, summary), order2)
    requires TypedHaveNoCalls(ms)
    ensures var r := Replacement(b, ms, order, summary);
      && r != []
      && (Replacement(b, r, order2, summary2) == r[..|r| - 1] + [SummaryMessage(summary2)]
          <==> Closed(Calls(ms), Results(ms), Tail(b, ms, order)))
  {
    if Closed(Calls(ms), Results(ms), Tail(b, ms, order)) {
      ClosedTailIsStable(b, ms, order, summary, order2, summary2);
    } else {
      var r := Replacement(b, ms, order, summary);
      var k, p := ReplacementIsPicture(b, ms, order, summary);
      OpenTailLosesAMessage(b, ms, Tail(b, ms, order), OlderUsers(b, ms, order), k, r, p, order2, summary2);
    }
  }

  /** With distinct ids the condition can be read off the history before compacting it: no
      pair inside the recent tail is split between a message that holds an orphan and one that
      does not. */
  lemma {:induction false} StableIffUnsplit(b: Budgets, ms: seq<Message>, order: seq<nat>, summary: string,
        order2: seq<nat>, summary2: string)
    requires VisitsTail(b, ms, order) && VisitsTail(b, Replacement(b, ms, order, summary), order2)
    requires TypedHaveNoCalls(ms) && Distinct(Calls(ms)) && Distinct(Results(ms))
    ensures var r := Replacement(b, ms, order, summary);
      && r != []
      && (Replacement(b, r, order2, summary2) == r[..|r| - 1] + [SummaryMessage(summary2)]
          <==> NoPairSplit(Calls(ms), Results(ms), RecentTail(b, ms)))
  {
    StableIff(b, ms, order, summary, order2, summary2);
    OnePassClosedIff(Calls(ms), Results(ms), order);
  }

  /** A conversation in which each message answers the calls of the one before it is
      compacted once and for all, when the cut is clean, as it always is with distinct ids. */
  lemma {:induction false} OrderedHistoriesAreStable(b: Budgets, ms: seq<Message>, order: seq<nat>, summary: string,
        order2: seq<nat>, summary2: string)
    requires VisitsTail(b, ms, order) && VisitsTail(b, Replacement(b, ms, order, summary), order2)
    requires History.Ordered(History.Shapes(ms))
    requires (History.CutCleanly(b, ms) || History.IdsDistinct(History.Shapes(ms)))
    ensures var r := Replacement(b, ms, order, summary);
      r != [] && Replacement(b, r, order2, summary2) == r[..|r| - 1] + [SummaryMessage(summary2)]
  {
    History.OrderedColumns(ms);
    if !History.CutCleanly(b, ms) {
      DistinctCutsCleanly(Calls(ms), Results(ms), Elements(order));
    }
    CleanCutKeepsRounds(Calls(ms), Results(ms), order);
    TogetherIsClosed(Calls(ms), Results(ms), Tail(b, ms, order));
    ClosedTailIsStable(b, ms, order, summary, order2, summary2);
  }

  lemma {:induction false} NotTyped(m: Message)
    requires m.role.Assistant? || ResIds(m) != []
    ensures !IsRealUser(m)
  {
    if IsRealUser(m) {
      RealUserHasNoResults(m);
    }
  }

  lemma {:induction false} MixedTypedHaveNoCalls()
    ensures TypedHaveNoCalls(MixedHistory())
  {
    var ms := MixedHistory();
    TwoAnswerIds("a", "b");
    assert BlocksOf(ms[2]) == [AnswerTo("a"), AnswerTo("b")] && ResIds(ms[2]) != [];
    forall i | 0 <= i < |ms|
      ensures !IsRealUser(ms[i])
    {
      NotTyped(ms[i]);
    }
  }

  lemma {:induction false} OpenIsUnstable(b: Budgets, ms: seq<Message>, order: seq<nat>, summary: string,
        order2: seq<nat>, summary2: string)
    requires VisitsTail(b, ms, order) && VisitsTail(b, Replacement(b, ms, order, summary), order2)
    requires TypedHaveNoCalls(ms) && !Closed(Calls(ms), Results(ms), Tail(b, ms, order))
    ensures var r := Replacement(b, ms, order, summary);
      r != [] && Replacement(b, r, order2, summary2) != r[..|r| - 1] + [SummaryMessage(summary2)]
  {
    StableIff(b, ms, order, summary, order2, summary2);
  }

  /** The case is real: a second checkpoint of the history whose tail stays open is not the
      first one with a new summary. */
  lemma {:induction false} MixedHistoryIsUnstable(order: seq<nat>, summary: string, order2: seq<nat>, summary2: string)
    requires VisitsTail(TwoMessages(), MixedHistory(), order)
    requires VisitsTail(TwoMessages(), Replacement(TwoMessages(), MixedHistory(), order, summary), order2)
    ensures var r := Replacement(TwoMessages(), MixedHistory(), order, summary);
      r != [] && Replacement(TwoMessages(), r, order2, summary2) != r[..|r| - 1] + [SummaryMessage(summary2)]
  {
    MixedTailStaysOpen(order);
    MixedTypedHaveNoCalls();
    OpenIsUnstable(TwoMessages(), MixedHistory(), order, summary, order2, summary2);
  }
}
