/** When a conversation is due for compaction: the threshold leaves room for the reply. */
module ContextBudget {

  const LEAST_MARGIN := 4096

  function Max(a: int, b: int): int {
    if a > b then a else b
  }

  function Min(a: int, b: int): int {
    if a < b then a else b
  }

  function Ceiling(x: real): int {
    -((-x).Floor)
  }

  function Limit(window: int): int {
    Max(1, window)
  }

  function Margin(limit: int): int {
    Max(LEAST_MARGIN, Ceiling(limit as real * 0.01))
  }

  function Ratio(ratio: real): real {
    if ratio < 0.0 then 0.0 else if ratio > 1.0 then 1.0 else ratio
  }

  /** What the input may use when the reply and the margin are set aside. */
  function SafeInput(limit: int, output: int): int {
    limit - Max(0, output) - Margin(limit)
  }

  function Scaled(limit: int, r: real): int {
    (limit as real * r).Floor
  }

  function Threshold(window: int, output: int, ratio: real): int {
    var limit, r := Limit(window), Ratio(ratio);
    if r <= 0.0 then 0 else Max(1, Min(Scaled(limit, r), SafeInput(limit, output)))
  }

  /** The loop's own gate. */
  predicate OverThreshold(used: int, threshold: int) {
    threshold != 0 && used >= threshold
  }

  /** The compressor's gate, asked before a turn and again inside it. */
  predicate ShouldCompress(used: int, messages: nat, threshold: int) {
    used >= threshold && messages > 1
  }

  lemma {:induction false} FloorIsMonotone(x: real, y: real)
    requires x <= y
    ensures x.Floor <= y.Floor
  {
  }

  /** A larger window is never eaten up by the margin it brings. */
  lemma {:induction false} SafeInputIsMonotone(a: int, b: int, output: int)
    requires 1 <= a <= b
    ensures SafeInput(a, output) <= SafeInput(b, output)
  {
    var x, y := a as real * 0.01, b as real * 0.01;
    assert y - x <= (b - a) as real;
    FloorIsMonotone(-x, -y + (b - a) as real);
    assert (-y + (b - a) as real).Floor == (-y).Floor + (b - a);
  }

  lemma {:induction false} ScaledIsMonotone(a: int, b: int, r: real)
    requires a <= b && r >= 0.0
    ensures Scaled(a, r) <= Scaled(b, r)
  {
    ScalesUp(r, a as real, b as real);
    FloorIsMonotone(a as real * r, b as real * r);
  }

  /** The threshold is zero exactly for a ratio of zero or less; otherwise some input always
      fits under it. */
  lemma {:induction false} ThresholdIsPositiveIff(window: int, output: int, ratio: real)
    ensures Threshold(window, output, ratio) >= 1 <==> ratio > 0.0
    ensures ratio <= 0.0 ==> Threshold(window, output, ratio) == 0
  {
  }

  /** The margin is the least number of tokens that is 4096 or more and at least a hundredth of the
      window. */
  lemma {:induction false} MarginIsLeast(limit: int)
    ensures Margin(limit) >= 4096 && 100 * Margin(limit) >= limit
    ensures forall n: int | n >= 4096 && 100 * n >= limit :: Margin(limit) <= n
  {
    var x := limit as real * 0.01;
    assert 100.0 * x == limit as real;
    forall n: int | n >= 4096 && 100 * n >= limit
      ensures Ceiling(x) <= n
    {
      assert n as real >= x;
    }
  }

  /** So many tokens of input are no more than their share of the window, and leave the room set
      aside. */
  predicate Permitted(share: real, room: int, n: int) {
    n as real <= share && n <= room
  }

  lemma {:induction false} LargestPermitted(share: real, room: int)
    ensures var largest := Max(1, Min(share.Floor, room));
      && (forall n :: Permitted(share, room, n) ==> n <= largest)
      && (largest == 1 || (largest > 1 && Permitted(share, room, largest)))
  {
    forall n | Permitted(share, room, n)
      ensures n <= Min(share.Floor, room)
    {
      FloorIsMonotone(n as real, share);
    }
  }

  /** A window counts as at least one token, and a ratio lies between zero and one. */
  lemma {:induction false} ClampedInputs(window: int, ratio: real)
    ensures Limit(window) >= 1 && (window >= 1 ==> Limit(window) == window) && (window < 1 ==> Limit(window) == 1)
    ensures 0.0 <= Ratio(ratio) <= 1.0 && (0.0 <= ratio <= 1.0 ==> Ratio(ratio) == ratio)
    ensures (ratio < 0.0 ==> Ratio(ratio) == 0.0) && (ratio > 1.0 ==> Ratio(ratio) == 1.0)
  {
  }

  /** With a positive ratio the threshold is the largest input that keeps to its share of the window
      and leaves room for the reply and the margin; it is one token when no input does. */
  lemma {:induction false} ThresholdIsLargest(window: int, output: int, ratio: real, limit: int, share: real)
    requires ratio > 0.0 && limit == Limit(window) && share == limit as real * Ratio(ratio)
    ensures var threshold, room := Threshold(window, output, ratio), limit - Max(0, output) - Margin(limit);
      && (forall n :: Permitted(share, room, n) ==> n <= threshold)
      && (threshold == 1 || (threshold > 1 && Permitted(share, room, threshold)))
  {
    LargestPermitted(share, SafeInput(limit, output));
  }

  /** A ratio of zero is meant to turn compaction off, and does so in the loop. The gate before
      a turn does not know the case: it then opens for every history of two messages. */
  lemma {:induction false} ZeroRatioCompactsEveryTurn(window: int, output: int, used: nat, messages: nat)
    requires messages >= 2
    ensures var threshold := Threshold(window, output, 0.0);
      ShouldCompress(used, messages, threshold) && !OverThreshold(used, threshold)
  {
  }

  /** The two gates agree on every request exactly when the ratio is positive. */
  lemma {:induction false} GatesAgreeIff(window: int, output: int, ratio: real, messages: nat)
    requires messages > 1
    ensures var threshold := Threshold(window, output, ratio);
      (forall used: nat :: ShouldCompress(used, messages, threshold) <==> OverThreshold(used, threshold))
          <==> ratio > 0.0
  {
    var threshold := Threshold(window, output, ratio);
    ThresholdIsPositiveIff(window, output, ratio);
    if ratio <= 0.0 {
      var none: nat := 0;
      assert ShouldCompress(none, messages, threshold) && !OverThreshold(none, threshold);
    }
  }

  /** Input up to the threshold, the reply and the margin fit into the window exactly when the
      window holds the reply, the margin and at least one token of input. */
  lemma {:induction false} ThresholdFitsIff(window: int, output: int, ratio: real)
    requires ratio > 0.0
    ensures Threshold(window, output, ratio) + Max(0, output) + Margin(Limit(window)) <= Limit(window)
       <==> SafeInput(Limit(window), output) >= 1
  {
  }

  /** A request that is not due for compaction leaves room for its reply. */
  lemma {:induction false} UnderThresholdFits(window: int, output: int, ratio: real, used: int)
    requires ratio > 0.0 && SafeInput(Limit(window), output) >= 1
    requires !OverThreshold(used, Threshold(window, output, ratio))
    ensures used + Max(0, output) + Margin(Limit(window)) < Limit(window)
  {
    ThresholdFitsIff(window, output, ratio);
  }

  lemma {:induction false} ScalesUp(x: real, y: real, z: real)
    requires x >= 0.0 && y <= z
    ensures x * y <= x * z
  {
  }

  lemma {:induction false} RatioIsMonotone(b: int, low: real, high: real)
    requires b >= 0 && low <= high
    ensures Scaled(b, low) <= Scaled(b, high)
  {
    ScalesUp(b as real, low, high);
    FloorIsMonotone(b as real * low, b as real * high);
  }

  lemma {:induction false} CapIsMonotone(p: int, q: int, s: int, t: int)
    requires p <= q && s <= t
    ensures Max(1, Min(p, s)) <= Max(1, Min(q, t))
  {
  }

  lemma {:induction false} WindowRaises(w: int, x: int, output: int, ratio: real)
    requires w <= x
    ensures Threshold(w, output, ratio) <= Threshold(x, output, ratio)
  {
    var a, b, r := Limit(w), Limit(x), Ratio(ratio);
    SafeInputIsMonotone(a, b, output);
    ScaledIsMonotone(a, b, r);
    CapIsMonotone(Scaled(a, r), Scaled(b, r), SafeInput(a, output), SafeInput(b, output));
  }

  lemma {:induction false} RatioRaises(w: int, output: int, low: real, high: real)
    requires low <= high
    ensures Threshold(w, output, low) <= Threshold(w, output, high)
  {
    RatioIsMonotone(Limit(w), Ratio(low), Ratio(high));
  }

  lemma {:induction false} OutputLowers(w: int, more: int, less: int, ratio: real)
    requires less <= more
    ensures Threshold(w, more, ratio) <= Threshold(w, less, ratio)
  {
  }

  /** The threshold grows with the window and the ratio and shrinks with the reply. */
  lemma {:induction false} ThresholdIsMonotone(w: int, x: int, more: int, less: int, low: real, high: real)
    requires w <= x && less <= more && low <= high
    ensures Threshold(w, more, low) <= Threshold(x, less, high)
  {
    WindowRaises(w, x, more, low);
    OutputLowers(x, more, less, low);
    RatioRaises(x, less, low, high);
  }
}
