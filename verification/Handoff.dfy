/** Shrinking the input of a compaction request: when it does not fit, tool results are
    condensed one at a time, oldest first, until it does. */
module Handoff {
  import opened Messages

  /** How tokens are counted, and the two texts that stand for what was cut. */
  datatype Meter = Meter(cost: seq<Message> -> int, estimate: string -> int,
                         cutMark: nat -> string, goneMark: int -> string)

  // ---- One tool result --------------------------------------------------------------

  function KeepChars(length: nat, keep: nat, tokens: int): nat {
    var scaled := length * keep / (if tokens > 1 then tokens else 1);
    if scaled < length then scaled else length
  }

  function Condense(m: Meter, text: string, keep: int, tokens: int): string {
    if keep <= 0 then m.goneMark(tokens)
    else
      var chars := KeepChars(|text|, keep, tokens);
      if chars >= |text| then text
      else text[..(chars + 1) / 2] + m.cutMark(|text| - chars) + text[|text| - chars / 2..]
  }

  /** `result` is the first `head` and the last `tail` characters of `text` around a mark that
      names how many characters were left out. */
  predicate Cut(m: Meter, text: string, result: string, head: nat, tail: nat) {
    && head + tail < |text|
    && result == text[..head] + m.cutMark(|text| - head - tail) + text[|text| - tail..]
  }

  lemma {:induction false} ScalesDown(length: nat, keep: nat, tokens: nat)
    requires 0 < length && keep < tokens
    ensures length * keep / tokens < length
    ensures var k := length * keep / tokens; k * tokens <= length * keep < (k + 1) * tokens
  {
    var k := length * keep / tokens;
    assert k * tokens <= length * keep < length * tokens;
    assert k >= length ==> k * tokens >= length * tokens;
  }

  /** A result given fewer tokens than it has keeps a beginning and an end of the original,
      the beginning at most one character longer, in proportion to the tokens it is given. */
  lemma {:induction false} CondenseKeepsBothEnds(m: Meter, text: string, keep: nat, tokens: nat)
    requires text != "" && 0 < keep < tokens
    ensures exists head: nat, tail: nat ::
      && Cut(m, text, Condense(m, text, keep, tokens), head, tail)
      && tail <= head <= tail + 1
      && (head + tail) * tokens <= |text| * keep < (head + tail + 1) * tokens
  {
    ScalesDown(|text|, keep, tokens);
    var chars := KeepChars(|text|, keep, tokens);
    var head, tail := (chars + 1) / 2, chars / 2;
    assert head + tail == chars;
    assert Cut(m, text, Condense(m, text, keep, tokens), head, tail);
  }

  // ---- All tool results -------------------------------------------------------------

  predicate InRange(ms: seq<Message>, a: nat, b: nat) {
    a < |ms| && b < |BlocksOf(ms[a])|
  }

  function BlockAt(ms: seq<Message>, a: nat, b: nat): Block
    requires InRange(ms, a, b)
  {
    BlocksOf(ms[a])[b]
  }

  function Put(ms: seq<Message>, a: nat, b: nat, block: Block): seq<Message>
    requires InRange(ms, a, b)
  {
    ms[a := ms[a].(content := Blocks(ms[a].content.blocks[b := block]))]
  }

  /** Block (a, b) comes before block (p, q). */
  predicate Precedes(a: nat, b: nat, p: nat, q: nat) {
    a < p || (a == p && b < q)
  }

  /** What is left for a result once the excess is taken from it. */
  function Share(tokens: int, excess: int): int {
    if tokens > excess then tokens - excess else 0
  }

  /** The decisions fitting makes: whether a history fits, which blocks there is something to
      take from, and what becomes of one in a given history. */
  datatype Reducer = Reducer(fits: seq<Message> -> bool, worth: Block -> bool, shrink: (seq<Message>, Block) -> Block)

  function Reduced(m: Meter, budget: int, ms: seq<Message>, b: Block): Block {
    if b.ToolResult? then
      var tokens := m.estimate(b.content);
      b.(content := Condense(m, b.content, Share(tokens, m.cost(ms) - budget), tokens))
    else b
  }

  function ReducerOf(m: Meter, budget: int): Reducer {
    Reducer((ms: seq<Message>) => m.cost(ms) <= budget,
            (b: Block) => b.ToolResult? && m.estimate(b.content) > 0,
            (ms: seq<Message>, b: Block) => Reduced(m, budget, ms, b))
  }

  predicate Reducible(g: Reducer, ms: seq<Message>, a: nat, b: nat) {
    InRange(ms, a, b) && g.worth(BlockAt(ms, a, b))
  }

  /** What fitting yields: the messages, how many results it condensed, and the block it
      stopped at. */
  datatype Fitted = Fitted(messages: seq<Message>, reduced: nat, message: nat, block: nat)

  function FitFrom(g: Reducer, ms: seq<Message>, i: nat, j: nat): Fitted
    requires i <= |ms|
    decreases |ms| - i, if i < |ms| then |BlocksOf(ms[i])| - j else 0
  {
    if i == |ms| then Fitted(ms, 0, i, 0)
    else if j >= |BlocksOf(ms[i])| then FitFrom(g, ms, i + 1, 0)
    else if !BlockAt(ms, i, j).ToolResult? then FitFrom(g, ms, i, j + 1)
    else if g.fits(ms) then Fitted(ms, 0, i, j)
    else if !Reducible(g, ms, i, j) then FitFrom(g, ms, i, j + 1)
    else
      var rest := FitFrom(g, Put(ms, i, j, g.shrink(ms, BlockAt(ms, i, j))), i, j + 1);
      rest.(reduced := rest.reduced + 1)
  }

  method FitHandoffInput(m: Meter, messages: seq<Message>, budget: int) returns (fitted: seq<Message>, reduced: nat)
    ensures budget <= 0 || m.cost(messages) <= budget ==> fitted == messages && reduced == 0
    ensures budget > 0 && m.cost(messages) > budget ==>
      var fit := FitFrom(ReducerOf(m, budget), messages, 0, 0); fitted == fit.messages && reduced == fit.reduced
  {
    fitted, reduced := messages, 0;
    if budget <= 0 || m.cost(messages) <= budget {
      return;
    }
    ghost var g := ReducerOf(m, budget);
    var i := 0;
    while i < |fitted|
      invariant 0 <= i <= |fitted| == |messages|
      invariant Continues(FitFrom(g, messages, 0, 0), FitFrom(g, fitted, i, 0), reduced)
    {
      var j := 0;
      while j < |BlocksOf(fitted[i])|
        invariant 0 <= i < |fitted| == |messages|
        invariant Continues(FitFrom(g, messages, 0, 0), FitFrom(g, fitted, i, j), reduced)
        decreases |BlocksOf(fitted[i])| - j
      {
        var block := BlockAt(fitted, i, j);
        if block.ToolResult? {
          if m.cost(fitted) <= budget {
            return;
          }
          var tokens := m.estimate(block.content);
          if tokens > 0 {
            var condensed := Condense(m, block.content, Share(tokens, m.cost(fitted) - budget), tokens);
            fitted := Put(fitted, i, j, block.(content := condensed));
            reduced := reduced + 1;
          }
        }
        j := j + 1;
      }
      i := i + 1;
    }
  }

  predicate Continues(whole: Fitted, rest: Fitted, reduced: nat) {
    whole == rest.(reduced := rest.reduced + reduced)
  }

  // ---- What fitting does ------------------------------------------------------------

  /** Same messages, same number of blocks in each, and nothing else changed outside them. */
  ghost predicate SameFrame(ms: seq<Message>, r: seq<Message>) {
    && |r| == |ms|
    && forall a {:trigger r[a]} {:trigger ms[a]} :: 0 <= a < |ms| ==>
         && r[a].role == ms[a].role
         && |BlocksOf(r[a])| == |BlocksOf(ms[a])|
         && (!ms[a].content.Blocks? ==> r[a] == ms[a])
  }

  /** The history as it stood when block (a, b) was reached: condensed before, original from
      there on. */
  ghost predicate AsReached(ms: seq<Message>, r: seq<Message>, mid: seq<Message>, a: nat, b: nat) {
    && SameFrame(ms, mid)
    && forall x: nat, y: nat {:trigger BlockAt(mid, x, y)} :: InRange(ms, x, y) ==>
         InRange(mid, x, y) && InRange(r, x, y)
         && BlockAt(mid, x, y) == if Precedes(x, y, a, b) then BlockAt(r, x, y) else BlockAt(ms, x, y)
  }

  /** This result was condensed because the history still did not fit when it was reached,
      and by exactly what was then missing. */
  ghost predicate CondensedInTurn(g: Reducer, ms: seq<Message>, r: seq<Message>, a: nat, b: nat)
    requires Reducible(g, ms, a, b) && InRange(r, a, b)
  {
    exists mid :: AsReached(ms, r, mid, a, b)
      && !g.fits(mid)
      && BlockAt(r, a, b) == g.shrink(mid, BlockAt(ms, a, b))
  }

  /** What each block has become, given where fitting started and stopped. */
  ghost predicate Explained(g: Reducer, ms: seq<Message>, r: seq<Message>, i: nat, j: nat, p: nat, q: nat) {
    && SameFrame(ms, r)
    && (forall a: nat, b: nat {:trigger BlockAt(r, a, b)} | InRange(ms, a, b) ::
          InRange(r, a, b) && BlockExplained(g, ms, r, a, b, !Precedes(a, b, i, j) && Precedes(a, b, p, q)))
  }

  ghost predicate BlockExplained(g: Reducer, ms: seq<Message>, r: seq<Message>, a: nat, b: nat, reached: bool)
    requires InRange(ms, a, b) && InRange(r, a, b)
  {
    if reached && Reducible(g, ms, a, b) then CondensedInTurn(g, ms, r, a, b) else BlockAt(r, a, b) == BlockAt(ms, a, b)
  }

  ghost predicate SameElsewhere(ms: seq<Message>, next: seq<Message>, i: nat, j: nat) {
    forall x: nat, y: nat {:trigger BlockAt(next, x, y)} | InRange(ms, x, y) && InRange(next, x, y) ::
      (x == i && y == j) || BlockAt(next, x, y) == BlockAt(ms, x, y)
  }

  lemma {:induction false} PutChangesOne(ms: seq<Message>, i: nat, j: nat, block: Block)
    requires InRange(ms, i, j)
    ensures SameFrame(ms, Put(ms, i, j, block)) && SameElsewhere(ms, Put(ms, i, j, block), i, j)
    ensures forall a: nat, b: nat {:trigger BlockAt(Put(ms, i, j, block), a, b)} | InRange(ms, a, b) ::
      InRange(Put(ms, i, j, block), a, b)
      && BlockAt(Put(ms, i, j, block), a, b) == if a == i && b == j then block else BlockAt(ms, a, b)
  {
    var r := Put(ms, i, j, block);
    assert BlocksOf(r[i]) == BlocksOf(ms[i])[j := block];
    forall a: nat, b: nat | InRange(ms, a, b)
      ensures InRange(r, a, b) && BlockAt(r, a, b) == if a == i && b == j then block else BlockAt(ms, a, b)
    {
      assert a != i ==> r[a] == ms[a];
    }
  }

  /** Condensing block (i, j) first does not change how the later blocks are explained. */
  lemma {:induction false} ExplainedAfterPut(g: Reducer, ms: seq<Message>, r: seq<Message>, i: nat, j: nat, p: nat,
        q: nat)
    requires Reducible(g, ms, i, j) && !g.fits(ms) && Precedes(i, j, p, q)
    requires Explained(g, Put(ms, i, j, g.shrink(ms, BlockAt(ms, i, j))), r, i, j + 1, p, q)
    ensures Explained(g, ms, r, i, j, p, q)
  {
    var block := g.shrink(ms, BlockAt(ms, i, j));
    var next := Put(ms, i, j, block);
    PutChangesOne(ms, i, j, block);
    forall a: nat, b: nat | InRange(ms, a, b)
      ensures InRange(r, a, b) && BlockExplained(g, ms, r, a, b, !Precedes(a, b, i, j) && Precedes(a, b, p, q))
    {
      assert InRange(next, a, b) && InRange(r, a, b);
      if a == i && b == j {
        FirstIsCondensed(g, ms, r, i, j, p, q);
      } else {
        assert BlockAt(next, a, b) == BlockAt(ms, a, b);
        assert BlockAt(r, a, b) == BlockAt(r, a, b);
        OtherStaysExplained(g, ms, next, r, i, j, a, b, !Precedes(a, b, i, j) && Precedes(a, b, p, q));
      }
    }
  }

  lemma {:induction false} OtherStaysExplained(g: Reducer, ms: seq<Message>, next: seq<Message>, r: seq<Message>,
        i: nat, j: nat, a: nat, b: nat, reached: bool)
    requires InRange(ms, a, b) && InRange(next, a, b) && InRange(r, a, b) && InRange(ms, i, j)
    requires reached ==> Precedes(i, j, a, b)
    requires BlockAt(next, a, b) == BlockAt(ms, a, b) && SameFrame(ms, next) && SameFrame(next, r)
    requires SameElsewhere(ms, next, i, j)
    requires BlockExplained(g, next, r, a, b, reached)
    ensures BlockExplained(g, ms, r, a, b, reached)
  {
    if reached && Reducible(g, ms, a, b) {
      var mid :| AsReached(next, r, mid, a, b) && !g.fits(mid)
          && BlockAt(r, a, b) == g.shrink(mid, BlockAt(next, a, b));
      ReachedFromBefore(ms, next, r, mid, i, j, a, b);
    }
  }

  lemma {:induction false} FirstIsCondensed(g: Reducer, ms: seq<Message>, r: seq<Message>, i: nat, j: nat, p: nat,
        q: nat)
    requires Reducible(g, ms, i, j) && !g.fits(ms)
    requires Explained(g, Put(ms, i, j, g.shrink(ms, BlockAt(ms, i, j))), r, i, j + 1, p, q)
    ensures InRange(r, i, j) && CondensedInTurn(g, ms, r, i, j)
  {
    var block := g.shrink(ms, BlockAt(ms, i, j));
    var next := Put(ms, i, j, block);
    PutChangesOne(ms, i, j, block);
    assert BlockAt(next, i, j) == block;
    assert BlockAt(r, i, j) == block;
    forall x: nat, y: nat | InRange(ms, x, y)
      ensures InRange(r, x, y) && (Precedes(x, y, i, j) ==> BlockAt(ms, x, y) == BlockAt(r, x, y))
    {
      assert InRange(next, x, y);
      assert BlockAt(next, x, y) == if x == i && y == j then block else BlockAt(ms, x, y);
      assert InRange(r, x, y);
      assert BlockExplained(g, next, r, x, y, !Precedes(x, y, i, j + 1) && Precedes(x, y, p, q));
    }
    assert AsReached(ms, r, ms, i, j);
  }

  lemma {:induction false} ReachedFromBefore(ms: seq<Message>, next: seq<Message>, r: seq<Message>, mid: seq<Message>,
        i: nat, j: nat, a: nat, b: nat)
    requires InRange(ms, i, j) && Precedes(i, j, a, b) && SameFrame(ms, next) && SameFrame(next, r)
    requires AsReached(next, r, mid, a, b)
    requires SameElsewhere(ms, next, i, j)
    ensures AsReached(ms, r, mid, a, b)
  {
    forall x: nat, y: nat | InRange(ms, x, y)
      ensures InRange(mid, x, y) && InRange(r, x, y)
      ensures BlockAt(mid, x, y) == if Precedes(x, y, a, b) then BlockAt(r, x, y) else BlockAt(ms, x, y)
    {
      assert InRange(next, x, y) && InRange(mid, x, y) && InRange(r, x, y);
      assert BlockAt(mid, x, y) == BlockAt(mid, x, y);
      assert Precedes(x, y, a, b) || BlockAt(next, x, y) == BlockAt(ms, x, y);
    }
    assert SameFrame(ms, mid);
  }

  /** The blocks from (i, j) up to (p, q) there was something to take from. */
  ghost function Worthwhile(g: Reducer, ms: seq<Message>, i: nat, j: nat, p: nat, q: nat): set<(nat, nat)> {
    set a: nat, b: nat | a < |ms| && b < |BlocksOf(ms[a])| && !Precedes(a, b, i, j) && Precedes(a, b, p, q)
        && Reducible(g, ms, a, b) :: (a, b)
  }

  /** Starting earlier explains the same, when there is nothing to take in between. */
  lemma {:induction false} ExplainedFromEarlier(g: Reducer, ms: seq<Message>, r: seq<Message>, i: nat, j: nat, k: nat,
        l: nat, p: nat, q: nat)
    requires Explained(g, ms, r, k, l, p, q) && Precedes(i, j, k, l)
    requires forall a: nat, b: nat | InRange(ms, a, b) && !Precedes(a, b, i, j) && Precedes(a, b, k, l) ::
        !Reducible(g, ms, a, b)
    ensures Explained(g, ms, r, i, j, p, q)
  {
    forall a: nat, b: nat | InRange(ms, a, b)
      ensures InRange(r, a, b) && BlockExplained(g, ms, r, a, b, !Precedes(a, b, i, j) && Precedes(a, b, p, q))
    {
      assert InRange(r, a, b);
      assert BlockAt(r, a, b) == BlockAt(r, a, b);
      assert BlockExplained(g, ms, r, a, b, !Precedes(a, b, k, l) && Precedes(a, b, p, q));
    }
  }

  lemma {:induction false} NothingReached(g: Reducer, ms: seq<Message>, i: nat, j: nat, q: nat)
    requires q <= j
    ensures Explained(g, ms, ms, i, j, i, q)
    ensures Worthwhile(g, ms, i, j, i, q) == {}
  {
    forall a: nat, b: nat | InRange(ms, a, b)
      ensures BlockExplained(g, ms, ms, a, b, !Precedes(a, b, i, j) && Precedes(a, b, i, q))
    {
    }
  }

  /** Fitting walks the tool results from the oldest on. It stops at the first one it reaches
      with a history that fits, or at the end; it condenses every non-empty result before
      that point, each in the history as it then stood, and changes nothing else. */
  lemma {:induction false} FitMeans(g: Reducer, ms: seq<Message>, i: nat, j: nat)
    requires i <= |ms| && (forall b | g.worth(b) :: b.ToolResult?)
    ensures var f := FitFrom(g, ms, i, j);
      && (f.message == |ms| || !Precedes(f.message, f.block, i, j))
      && Explained(g, ms, f.messages, i, j, f.message, f.block)
      && (g.fits(f.messages) || f.message == |ms|)
    decreases |ms| - i, if i < |ms| then |BlocksOf(ms[i])| - j else 0
  {
    if i == |ms| {
      NothingReached(g, ms, i, j, 0);
    } else if j >= |BlocksOf(ms[i])| {
      FitMeans(g, ms, i + 1, 0);
      var f := FitFrom(g, ms, i + 1, 0);
      ExplainedFromEarlier(g, ms, f.messages, i, j, i + 1, 0, f.message, f.block);
    } else if !BlockAt(ms, i, j).ToolResult? {
      FitMeans(g, ms, i, j + 1);
      var f := FitFrom(g, ms, i, j + 1);
      ExplainedFromEarlier(g, ms, f.messages, i, j, i, j + 1, f.message, f.block);
    } else if g.fits(ms) {
      NothingReached(g, ms, i, j, j);
    } else if !Reducible(g, ms, i, j) {
      FitMeans(g, ms, i, j + 1);
      var f := FitFrom(g, ms, i, j + 1);
      ExplainedFromEarlier(g, ms, f.messages, i, j, i, j + 1, f.message, f.block);
    } else {
      var next := Put(ms, i, j, g.shrink(ms, BlockAt(ms, i, j)));
      PutChangesOne(ms, i, j, g.shrink(ms, BlockAt(ms, i, j)));
      FitMeans(g, next, i, j + 1);
      var f := FitFrom(g, next, i, j + 1);
      ExplainedAfterPut(g, ms, f.messages, i, j, f.message, f.block);
    }
  }

  /** The reported number is the number of results condensed. */
  lemma {:induction false} ReducedIsExact(g: Reducer, ms: seq<Message>, i: nat, j: nat)
    requires i <= |ms| && (forall b | g.worth(b) :: b.ToolResult?)
    ensures var f := FitFrom(g, ms, i, j);
      f.reduced == |Worthwhile(g, ms, i, j, f.message, f.block)|
    decreases |ms| - i, if i < |ms| then |BlocksOf(ms[i])| - j else 0
  {
    var f := FitFrom(g, ms, i, j);
    var p, q := f.message, f.block;
    if i == |ms| {
      NothingReached(g, ms, i, j, 0);
    } else if j >= |BlocksOf(ms[i])| {
      ReducedIsExact(g, ms, i + 1, 0);
      SameWorthwhile(g, ms, i, j, i + 1, 0, p, q);
    } else if BlockAt(ms, i, j).ToolResult? && g.fits(ms) {
      NothingReached(g, ms, i, j, j);
    } else if !Reducible(g, ms, i, j) {
      ReducedIsExact(g, ms, i, j + 1);
      SameWorthwhile(g, ms, i, j, i, j + 1, p, q);
    } else {
      var next := Put(ms, i, j, g.shrink(ms, BlockAt(ms, i, j)));
      ReducedIsExact(g, next, i, j + 1);
      FitMeans(g, next, i, j + 1);
      OneMoreAfterPut(g, ms, i, j, p, q);
    }
  }

  lemma {:induction false} OneMoreAfterPut(g: Reducer, ms: seq<Message>, i: nat, j: nat, p: nat, q: nat)
    requires Reducible(g, ms, i, j) && Precedes(i, j, p, q)
    ensures var next := Put(ms, i, j, g.shrink(ms, BlockAt(ms, i, j)));
      |Worthwhile(g, ms, i, j, p, q)| == |Worthwhile(g, next, i, j + 1, p, q)| + 1
  {
    var block := g.shrink(ms, BlockAt(ms, i, j));
    PutChangesOne(ms, i, j, block);
    SameLater(g, ms, Put(ms, i, j, block), i, j, p, q);
    OneMoreWorthwhile(g, ms, i, j, p, q);
  }

  lemma {:induction false} SameWorthwhile(g: Reducer, ms: seq<Message>, i: nat, j: nat, k: nat, l: nat, p: nat, q: nat)
    requires Precedes(i, j, k, l)
    requires forall a: nat, b: nat | InRange(ms, a, b) && !Precedes(a, b, i, j) && Precedes(a, b, k, l) ::
        !Reducible(g, ms, a, b)
    ensures Worthwhile(g, ms, i, j, p, q) == Worthwhile(g, ms, k, l, p, q)
  {
  }

  lemma {:induction false} OneMoreWorthwhile(g: Reducer, ms: seq<Message>, i: nat, j: nat, p: nat, q: nat)
    requires Reducible(g, ms, i, j) && Precedes(i, j, p, q)
    ensures |Worthwhile(g, ms, i, j, p, q)| == |Worthwhile(g, ms, i, j + 1, p, q)| + 1
  {
    assert Worthwhile(g, ms, i, j, p, q) == {(i, j)} + Worthwhile(g, ms, i, j + 1, p, q);
    assert (i, j) !in Worthwhile(g, ms, i, j + 1, p, q);
  }

  lemma {:induction false} SameLater(g: Reducer, ms: seq<Message>, next: seq<Message>, i: nat, j: nat, p: nat, q: nat)
    requires SameFrame(ms, next) && SameElsewhere(ms, next, i, j)
    ensures Worthwhile(g, next, i, j + 1, p, q) == Worthwhile(g, ms, i, j + 1, p, q)
  {
    forall a: nat, b: nat | a < |ms| && b < |BlocksOf(ms[a])| && !Precedes(a, b, i, j + 1)
      ensures InRange(next, a, b) && BlockAt(next, a, b) == BlockAt(ms, a, b)
    {
      assert InRange(ms, a, b) && |BlocksOf(next[a])| == |BlocksOf(ms[a])|;
      assert BlockAt(next, a, b) == BlockAt(next, a, b);
    }
    assert forall a: nat, b: nat | !Precedes(a, b, i, j + 1) :: Reducible(g, next, a, b) <==> Reducible(g, ms, a, b);
  }

  /** A condensed result: only a note of what is gone, or a beginning and an end with the
      number of characters between them. The note and the mark have a length of their own. */
  ghost predicate CutDown(m: Meter, text: string, result: string) {
    || result == m.goneMark(m.estimate(text))
    || exists head: nat, tail: nat :: tail <= head <= tail + 1 && Cut(m, text, result, head, tail)
  }

  /** A result with more tokens than were missing is cut to what the difference buys, in proportion,
      at both ends; one with no more than that is replaced by a note of its size. */
  lemma {:induction false} ReducedByExcess(m: Meter, budget: int, ms: seq<Message>, b: Block)
    requires b.ToolResult? && b.content != "" && m.estimate(b.content) > 0 && m.cost(ms) > budget
    ensures var r, tokens, excess := ReducerOf(m, budget).shrink(ms, b), m.estimate(b.content), m.cost(ms) - budget;
      && r.ToolResult? && r.toolUseId == b.toolUseId
      && (tokens <= excess ==> r.content == m.goneMark(tokens))
      && (tokens > excess ==> exists head: nat, tail: nat ::
           && Cut(m, b.content, r.content, head, tail) && tail <= head <= tail + 1
           && (head + tail) * tokens <= |b.content| * (tokens - excess) < (head + tail + 1) * tokens)
  {
    var tokens, excess := m.estimate(b.content), m.cost(ms) - budget;
    if tokens > excess {
      CondenseKeepsBothEnds(m, b.content, tokens - excess, tokens);
    }
  }

  lemma {:induction false} CondensedIsCutDown(m: Meter, budget: int, mid: seq<Message>, b: Block)
    requires b.ToolResult? && b.content != "" && m.estimate(b.content) > 0 && m.cost(mid) > budget
    ensures Reduced(m, budget, mid, b) == b.(content := Reduced(m, budget, mid, b).content)
    ensures CutDown(m, b.content, Reduced(m, budget, mid, b).content)
  {
    var tokens := m.estimate(b.content);
    var share := Share(tokens, m.cost(mid) - budget);
    if share > 0 {
      CondenseKeepsBothEnds(m, b.content, share, tokens);
    }
  }

  /** Fitting a history that is too long yields one that fits, or one in which every
      non-empty tool result is cut down. */
  lemma {:induction false} FitsOrAllCutDown(m: Meter, ms: seq<Message>, budget: int, a: nat, b: nat)
    requires var r := FitFrom(ReducerOf(m, budget), ms, 0, 0).messages; m.cost(r) > budget
    requires InRange(ms, a, b) && BlockAt(ms, a, b).ToolResult?
    requires BlockAt(ms, a, b).content != "" && m.estimate(BlockAt(ms, a, b).content) > 0
    ensures var r := FitFrom(ReducerOf(m, budget), ms, 0, 0).messages;
      && InRange(r, a, b)
      && BlockAt(r, a, b).ToolResult? && BlockAt(r, a, b).toolUseId == BlockAt(ms, a, b).toolUseId
      && CutDown(m, BlockAt(ms, a, b).content, BlockAt(r, a, b).content)
  {
    var g := ReducerOf(m, budget);
    var f := FitFrom(g, ms, 0, 0);
    FitMeans(g, ms, 0, 0);
    assert InRange(f.messages, a, b);
    assert BlockAt(f.messages, a, b) == BlockAt(f.messages, a, b);
    assert BlockExplained(g, ms, f.messages, a, b, true);
    assert CondensedInTurn(g, ms, f.messages, a, b);
    var mid :| AsReached(ms, f.messages, mid, a, b) && !g.fits(mid)
        && BlockAt(f.messages, a, b) == g.shrink(mid, BlockAt(ms, a, b));
    CondensedIsCutDown(m, budget, mid, BlockAt(ms, a, b));
  }

  /** A cut makes the text shorter exactly when the mark is shorter than what it stands for. */
  lemma {:induction false} CutIsShorterIff(m: Meter, text: string, result: string, head: nat, tail: nat)
    requires Cut(m, text, result, head, tail)
    ensures var omitted := |text| - head - tail;
      |result| < |text| <==> |m.cutMark(omitted)| < omitted
  {
  }
}
