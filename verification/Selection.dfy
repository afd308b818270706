/** The two token-bounded scans of the context compressor, from the newest message back:
    the recent tail, and the user messages kept under a second budget. */
module Selection {
  import opened Messages

  /** What the scans ask about a message: its token count, whether it is an old summary,
      and whether the user typed it. */
  datatype View = View(tokens: Message -> nat, summary: Message -> bool, user: Message -> bool)

  function Cost(v: View, m: Message): (c: nat)
    ensures c >= 1
  {
    if v.tokens(m) >= 1 then v.tokens(m) else 1
  }

  function CostOf(v: View, ms: seq<Message>): nat {
    if ms == [] then 0 else CostOf(v, ms[..|ms| - 1]) + Cost(v, ms[|ms| - 1])
  }

  lemma {:induction false} CostOfConcat(v: View, a: seq<Message>, b: seq<Message>)
    ensures CostOf(v, a + b) == CostOf(v, a) + CostOf(v, b)
  {
    if b == [] {
      assert a + b == a;
    } else {
      CostOfConcat(v, a, b[..|b| - 1]);
      assert (a + b)[..|a + b| - 1] == a + b[..|b| - 1];
    }
  }

  // ---- Picking messages by index ----------------------------------------------------

  /** The messages at the indices of `keep` in [lo, hi), in history order. */
  function Pick(ms: seq<Message>, keep: set<nat>, lo: nat, hi: nat): (r: seq<Message>)
    requires lo <= hi <= |ms|
    ensures |r| <= hi - lo
  {
    if lo == hi then [] else Pick(ms, keep, lo, hi - 1) + (if hi - 1 in keep then [ms[hi - 1]] else [])
  }

  lemma {:induction false} PickSplit(ms: seq<Message>, keep: set<nat>, lo: nat, mid: nat, hi: nat)
    requires lo <= mid <= hi <= |ms|
    ensures Pick(ms, keep, lo, hi) == Pick(ms, keep, lo, mid) + Pick(ms, keep, mid, hi)
  {
    if mid < hi {
      PickSplit(ms, keep, lo, mid, hi - 1);
    }
  }

  lemma {:induction false} PickMembers(ms: seq<Message>, keep: set<nat>, lo: nat, hi: nat)
    requires lo <= hi <= |ms|
    ensures forall m :: m in Pick(ms, keep, lo, hi) ==> exists i: nat :: lo <= i < hi && i in keep && ms[i] == m
    ensures forall i: nat :: lo <= i < hi && i in keep ==> ms[i] in Pick(ms, keep, lo, hi)
  {
    if lo < hi {
      PickMembers(ms, keep, lo, hi - 1);
    }
  }

  /** Where a picked message comes from. */
  lemma {:induction false} PickOrigin(ms: seq<Message>, keep: set<nat>, lo: nat, hi: nat, t: nat) returns (i: nat)
    requires lo <= hi <= |ms| && t < |Pick(ms, keep, lo, hi)|
    ensures lo <= i < hi && i in keep && ms[i] == Pick(ms, keep, lo, hi)[t]
  {
    PickMembers(ms, keep, lo, hi);
    var m := Pick(ms, keep, lo, hi)[t];
    assert m in Pick(ms, keep, lo, hi);
    i :| lo <= i < hi && i in keep && ms[i] == m;
  }

  /** Where a kept message goes. */
  lemma {:induction false} PickPlace(ms: seq<Message>, keep: set<nat>, lo: nat, hi: nat, i: nat) returns (t: nat)
    requires lo <= i < hi <= |ms| && i in keep
    ensures t < |Pick(ms, keep, lo, hi)| && Pick(ms, keep, lo, hi)[t] == ms[i]
  {
    PickMembers(ms, keep, lo, hi);
    var picked := Pick(ms, keep, lo, hi);
    var k :| 0 <= k < |picked| && picked[k] == ms[i];
    t := k;
  }

  lemma {:induction false} PickSame(ms: seq<Message>, a: set<nat>, b: set<nat>, lo: nat, hi: nat)
    requires lo <= hi <= |ms|
    requires forall i: nat :: lo <= i < hi ==> (i in a <==> i in b)
    ensures Pick(ms, a, lo, hi) == Pick(ms, b, lo, hi)
  {
    if lo < hi {
      PickSame(ms, a, b, lo, hi - 1);
    }
  }

  lemma {:induction false} PickAll(ms: seq<Message>, keep: set<nat>, hi: nat)
    requires hi <= |ms|
    requires forall i: nat :: i < hi ==> i in keep
    ensures Pick(ms, keep, 0, hi) == ms[..hi]
  {
    if hi > 0 {
      PickAll(ms, keep, hi - 1);
      assert ms[..hi] == ms[..hi - 1] + [ms[hi - 1]];
    }
  }

  lemma {:induction false} PickCostStep(v: View, ms: seq<Message>, keep: set<nat>, lo: nat, hi: nat)
    requires lo < hi <= |ms|
    ensures CostOf(v, Pick(ms, keep, lo, hi))
         == CostOf(v, Pick(ms, keep, lo, hi - 1)) + (if hi - 1 in keep then Cost(v, ms[hi - 1]) else 0)
  {
    var before := Pick(ms, keep, lo, hi - 1);
    var after := Pick(ms, keep, lo, hi);
    if hi - 1 in keep {
      assert after[..|after| - 1] == before;
    } else {
      assert after == before;
    }
  }

  lemma {:induction false} PickCostMonotone(v: View, ms: seq<Message>, a: set<nat>, b: set<nat>, lo: nat, hi: nat)
    requires lo <= hi <= |ms|
    requires forall i: nat :: lo <= i < hi && i in a ==> i in b
    ensures CostOf(v, Pick(ms, a, lo, hi)) <= CostOf(v, Pick(ms, b, lo, hi))
  {
    if lo < hi {
      PickCostMonotone(v, ms, a, b, lo, hi - 1);
      PickCostStep(v, ms, a, lo, hi);
      PickCostStep(v, ms, b, lo, hi);
    }
  }

  lemma {:induction false} PickCostPositive(v: View, ms: seq<Message>, keep: set<nat>, i: nat, hi: nat)
    requires i < hi <= |ms| && i in keep
    ensures CostOf(v, Pick(ms, keep, 0, hi)) >= 1
  {
    PickCostStep(v, ms, keep, 0, hi);
    if i < hi - 1 {
      PickCostPositive(v, ms, keep, i, hi - 1);
    }
  }

  // ---- The recent tail --------------------------------------------------------------

  /** Where the backward scan over ms[..n] with `remaining` tokens stops: everything at or
      after the result was taken or is a summary. */
  function RecentCut(v: View, ms: seq<Message>, n: nat, remaining: int): (k: nat)
    requires n <= |ms|
    ensures k <= n
  {
    if n == 0 then 0
    else if v.summary(ms[n - 1]) then RecentCut(v, ms, n - 1, remaining)
    else if Cost(v, ms[n - 1]) > remaining then n
    else RecentCut(v, ms, n - 1, remaining - Cost(v, ms[n - 1]))
  }

  function From(v: View, ms: seq<Message>, k: nat): set<nat> {
    set i: nat | k <= i < |ms| && !v.summary(ms[i])
  }

  function Recent(v: View, ms: seq<Message>, budget: int): set<nat> {
    From(v, ms, RecentCut(v, ms, |ms|, budget))
  }

  lemma {:induction false} NoBudgetNoTail(v: View, ms: seq<Message>, n: nat, budget: int)
    requires n <= |ms| && budget <= 0
    ensures forall i: nat :: RecentCut(v, ms, n, budget) <= i < n ==> v.summary(ms[i])
  {
    if n > 0 && v.summary(ms[n - 1]) {
      NoBudgetNoTail(v, ms, n - 1, budget);
    }
  }

  method SelectRecentIndices(v: View, ms: seq<Message>, budget: int) returns (selected: set<nat>)
    ensures selected == Recent(v, ms, budget)
  {
    selected := {};
    if budget <= 0 {
      NoBudgetNoTail(v, ms, |ms|, budget);
      return;
    }
    var remaining := budget;
    var index := |ms|;
    while index > 0
      invariant 0 <= index <= |ms|
      invariant RecentCut(v, ms, |ms|, budget) == RecentCut(v, ms, index, remaining)
      invariant selected == From(v, ms, index)
    {
      if v.summary(ms[index - 1]) {
        assert From(v, ms, index - 1) == From(v, ms, index);
        index := index - 1;
        continue;
      }
      var cost := Cost(v, ms[index - 1]);
      if cost > remaining {
        break;
      }
      assert From(v, ms, index - 1) == From(v, ms, index) + {index - 1};
      selected := selected + {index - 1};
      remaining := remaining - cost;
      index := index - 1;
    }
  }

  /** The tail fits its budget, and it is the longest one that does: the newest message
      left out would not have fitted. */
  lemma {:induction false} RecentIsMaximal(v: View, ms: seq<Message>, n: nat, budget: int)
    requires n <= |ms| && budget >= 0
    ensures var k := RecentCut(v, ms, n, budget);
      var spent := CostOf(v, Pick(ms, From(v, ms, k), k, n));
      && spent <= budget
      && (k > 0 ==> !v.summary(ms[k - 1]) && spent + Cost(v, ms[k - 1]) > budget)
  {
    var k := RecentCut(v, ms, n, budget);
    if n > 0 && k < n {
      var rest := if v.summary(ms[n - 1]) then budget else budget - Cost(v, ms[n - 1]);
      RecentIsMaximal(v, ms, n - 1, rest);
      PickCostStep(v, ms, From(v, ms, k), k, n);
    }
  }

  /** Cost of the messages of ms[lo..hi] that satisfy `which`. */
  function CostWhere(v: View, ms: seq<Message>, which: Message -> bool, lo: nat, hi: nat): nat
    requires lo <= hi <= |ms|
  {
    if lo == hi then 0
    else CostWhere(v, ms, which, lo, hi - 1) + if which(ms[hi - 1]) then Cost(v, ms[hi - 1]) else 0
  }

  function Any(): Message -> bool {
    _ => true
  }

  /** A block of messages that fits the budget as a whole is inside the recent tail. */
  lemma {:induction false} CutCoversFittingTail(v: View, ms: seq<Message>, p: nat, n: nat, remaining: int)
    requires p <= n <= |ms|
    requires CostWhere(v, ms, Any(), p, n) <= remaining
    ensures RecentCut(v, ms, n, remaining) <= p
  {
    if p < n {
      CutCoversFittingTail(v, ms, p, n - 1, if v.summary(ms[n - 1]) then remaining else remaining - Cost(v, ms[n - 1]));
    }
  }

  // ---- Older user messages ----------------------------------------------------------

  predicate Candidate(v: View, ms: seq<Message>, excluded: set<nat>, i: nat)
    requires i < |ms|
  {
    i !in excluded && v.user(ms[i])
  }

  function UserCut(v: View, ms: seq<Message>, excluded: set<nat>, n: nat, used: nat, budget: int): (k: nat)
    requires n <= |ms|
    ensures k <= n
  {
    if n == 0 then 0
    else if !Candidate(v, ms, excluded, n - 1) then UserCut(v, ms, excluded, n - 1, used, budget)
    else if used + Cost(v, ms[n - 1]) > budget then n
    else UserCut(v, ms, excluded, n - 1, used + Cost(v, ms[n - 1]), budget)
  }

  function CandidatesFrom(v: View, ms: seq<Message>, excluded: set<nat>, k: nat): set<nat> {
    set i: nat | k <= i < |ms| && Candidate(v, ms, excluded, i)
  }

  function Users(v: View, ms: seq<Message>, excluded: set<nat>, budget: int): set<nat> {
    CandidatesFrom(v, ms, excluded, UserCut(v, ms, excluded, |ms|, 0, budget))
  }

  method SelectUserIndices(v: View, ms: seq<Message>, excluded: set<nat>, budget: int)
    returns (selected: set<nat>, used: nat)
    ensures selected == Users(v, ms, excluded, budget)
    ensures used == CostOf(v, Pick(ms, selected, 0, |ms|))
  {
    selected, used := {}, 0;
    var index := |ms|;
    PickNone(ms, {}, 0, |ms|);
    while index > 0
      invariant 0 <= index <= |ms|
      invariant UserCut(v, ms, excluded, |ms|, 0, budget) == UserCut(v, ms, excluded, index, used, budget)
      invariant selected == CandidatesFrom(v, ms, excluded, index)
      invariant used == CostOf(v, Pick(ms, selected, 0, |ms|))
    {
      if !Candidate(v, ms, excluded, index - 1) {
        assert CandidatesFrom(v, ms, excluded, index - 1) == CandidatesFrom(v, ms, excluded, index);
        index := index - 1;
        continue;
      }
      var cost := Cost(v, ms[index - 1]);
      if used + cost > budget {
        break;
      }
      PickAddFirst(v, ms, selected, index - 1);
      assert CandidatesFrom(v, ms, excluded, index - 1) == selected + {index - 1};
      selected := selected + {index - 1};
      used := used + cost;
      index := index - 1;
    }
  }

  lemma {:induction false} PickNone(ms: seq<Message>, keep: set<nat>, lo: nat, hi: nat)
    requires lo <= hi <= |ms|
    requires forall i: nat :: lo <= i < hi ==> i !in keep
    ensures Pick(ms, keep, lo, hi) == []
  {
    if lo < hi {
      PickNone(ms, keep, lo, hi - 1);
    }
  }

  lemma {:induction false} PickAddFirst(v: View, ms: seq<Message>, keep: set<nat>, i: nat)
    requires i < |ms|
    requires forall j: nat :: j in keep ==> i < j
    ensures CostOf(v, Pick(ms, keep + {i}, 0, |ms|)) == Cost(v, ms[i]) + CostOf(v, Pick(ms, keep, 0, |ms|))
  {
    var more := keep + {i};
    PickSplit(ms, more, 0, i + 1, |ms|);
    PickSplit(ms, keep, 0, i + 1, |ms|);
    PickSame(ms, more, keep, i + 1, |ms|);
    PickNone(ms, keep, 0, i + 1);
    PickNone(ms, more, 0, i);
    var rest := Pick(ms, keep, i + 1, |ms|);
    assert Pick(ms, more, 0, |ms|) == [ms[i]] + rest;
    assert Pick(ms, keep, 0, |ms|) == rest;
    CostOfConcat(v, [ms[i]], rest);
    assert CostOf(v, [ms[i]]) == CostOf(v, []) + Cost(v, ms[i]) by {
      assert [ms[i]][..0] == [];
    }
  }

  /** The kept user messages fit their budget, and the newest candidate left out would not. */
  lemma {:induction false} UsersAreMaximal(v: View, ms: seq<Message>, excluded: set<nat>, n: nat, used: nat,
        budget: int)
    requires n <= |ms| && used <= budget
    ensures var k := UserCut(v, ms, excluded, n, used, budget);
      var spent := used + CostOf(v, Pick(ms, CandidatesFrom(v, ms, excluded, k), k, n));
      && spent <= budget
      && (k > 0 ==> Candidate(v, ms, excluded, k - 1) && spent + Cost(v, ms[k - 1]) > budget)
  {
    var k := UserCut(v, ms, excluded, n, used, budget);
    if n > 0 && k < n {
      var next := if Candidate(v, ms, excluded, n - 1) then used + Cost(v, ms[n - 1]) else used;
      UsersAreMaximal(v, ms, excluded, n - 1, next, budget);
      PickCostStep(v, ms, CandidatesFrom(v, ms, excluded, k), k, n);
    }
  }

  /** When all candidates together fit, none is left out. */
  lemma {:induction false} AllCandidatesFit(v: View, ms: seq<Message>, excluded: set<nat>, n: nat, used: nat,
        budget: int)
    requires n <= |ms|
    requires forall i: nat :: i < n && Candidate(v, ms, excluded, i) ==>
      used + CostOf(v, Pick(ms, CandidatesFrom(v, ms, excluded, 0), 0, n)) <= budget
    ensures UserCut(v, ms, excluded, n, used, budget) == 0
  {
    if n > 0 {
      var all, last := CandidatesFrom(v, ms, excluded, 0), Candidate(v, ms, excluded, n - 1);
      var next := if last then used + Cost(v, ms[n - 1]) else used;
      PickCostStep(v, ms, all, 0, n);
      assert n - 1 in all <==> last;
      assert used + CostOf(v, Pick(ms, all, 0, n)) == next + CostOf(v, Pick(ms, all, 0, n - 1));
      AllCandidatesFit(v, ms, excluded, n - 1, next, budget);
    }
  }
}
