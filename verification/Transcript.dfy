/** What is stored of a turn that was stopped: its messages without tool calls that were never
    answered, and a closing note. */
module Transcript {
  import opened Options
  import opened Messages
  import opened TurnLoop

  const STOPPED := "已停止。"

  // ---- Blocks -----------------------------------------------------------------------

  /** The ids of the answered calls among the first n blocks. */
  function CallsKept(blocks: seq<Block>, answered: set<string>, n: nat): set<string>
    requires n <= |blocks|
  {
    if n == 0 then {}
    else
      var b := blocks[n - 1];
      CallsKept(blocks, answered, n - 1) + if b.ToolUse? && b.id != "" && b.id in answered then {b.id} else {}
  }

  /** A call stays when it was answered, a result when its call stayed before it. */
  predicate Stays(b: Block, answered: set<string>, retained: set<string>) {
    match b
    case ToolUse(id, _, _) => id != "" && id in answered
    case ToolResult(id, _) => id != "" && id in retained
    case _ => true
  }

  function KeepBlocks(blocks: seq<Block>, answered: set<string>, retained: set<string>, n: nat): seq<Block>
    requires n <= |blocks|
  {
    if n == 0 then []
    else
      var b := blocks[n - 1];
      KeepBlocks(blocks, answered, retained, n - 1)
      + if Stays(b, answered, retained + CallsKept(blocks, answered, n - 1)) then [b] else []
  }

  /** How many of the first n blocks are calls that do not stay. */
  function Dropped(blocks: seq<Block>, answered: set<string>, n: nat): nat
    requires n <= |blocks|
  {
    if n == 0 then 0
    else
      var b := blocks[n - 1];
      Dropped(blocks, answered, n - 1) + if b.ToolUse? && !Stays(b, answered, {}) then 1 else 0
  }

  // ---- Messages ---------------------------------------------------------------------

  /** The ids that any result in these messages answers. */
  function AnsweredIds(ms: seq<Message>): set<string> {
    set m, b | m in ms && b in BlocksOf(m) && b.ToolResult? && b.toolUseId != "" :: b.toolUseId
  }

  /** The ids of the calls kept in the first n messages. */
  function Retained(ms: seq<Message>, answered: set<string>, n: nat): set<string>
    requires n <= |ms|
  {
    if n == 0 then {}
    else Retained(ms, answered, n - 1) + CallsKept(BlocksOf(ms[n - 1]), answered, |BlocksOf(ms[n - 1])|)
  }

  /** What is kept of one message: nothing of one that has no block left. */
  function KeptOf(m: Message, answered: set<string>, retained: set<string>): seq<Message> {
    match m.content
    case Blocks(bs) =>
      var kept := KeepBlocks(bs, answered, retained, |bs|);
      if kept == [] then [] else [m.(content := Blocks(kept))]
    case _ => [m]
  }

  function KeepMessages(ms: seq<Message>, answered: set<string>, n: nat): seq<Message>
    requires n <= |ms|
  {
    if n == 0 then []
    else KeepMessages(ms, answered, n - 1) + KeptOf(ms[n - 1], answered, Retained(ms, answered, n - 1))
  }

  function CallsDropped(ms: seq<Message>, answered: set<string>, n: nat): nat
    requires n <= |ms|
  {
    if n == 0 then 0
    else CallsDropped(ms, answered, n - 1) + Dropped(BlocksOf(ms[n - 1]), answered, |BlocksOf(ms[n - 1])|)
  }

  /** The part of these messages that is fit to be stored. */
  function Complete(ms: seq<Message>): seq<Message> {
    KeepMessages(ms, AnsweredIds(ms), |ms|)
  }

  // ---- The messages of the turn -----------------------------------------------------

  predicate StartsTurn(m: Message, expected: string) {
    m.role.User? && ResIds(m) == [] && (expected == "" || Strip(MessageText(m)) == expected)
  }

  /** The last of the first n messages that may have started the turn. */
  function LastStart(ms: seq<Message>, expected: string, n: nat): (start: Option<nat>)
    requires n <= |ms|
    ensures start.Some? ==> start.value < n && StartsTurn(ms[start.value], expected)
  {
    if n == 0 then None
    else if StartsTurn(ms[n - 1], expected) then Some(n - 1)
    else LastStart(ms, expected, n - 1)
  }

  /** From the index the turn keeps of the user's message, or else from the last message that
      reads like it, or else the user's text alone. */
  function TurnMessages(ms: seq<Message>, at: nat, text: string): seq<Message> {
    if at < |ms| then ms[at..]
    else
      var start := LastStart(ms, Strip(text), |ms|);
      if start.Some? then ms[start.value..] else [Note(User, text)]
  }

  function Marker(text: string): string {
    if Strip(text) != "" then Strip(text) else STOPPED
  }

  predicate EndsWith(ms: seq<Message>, text: string) {
    ms != [] && ms[|ms| - 1].role.Assistant? && Strip(MessageText(ms[|ms| - 1])) == text
  }

  function Marked(ms: seq<Message>, text: string): seq<Message> {
    if EndsWith(ms, text) then ms else ms + [Note(Assistant, text)]
  }

  function StoppedTranscript(ms: seq<Message>, at: nat, text: string, closing: string): seq<Message> {
    Marked(Complete(TurnMessages(ms, at, text)), Marker(closing))
  }

  /** The closing text is what was said last, stripped, or that the turn was stopped. */
  lemma {:induction false} MarkerIsStripped(closing: string)
    ensures Marker(closing) == (if Strip(closing) == "" then "已停止。" else Strip(closing))
    ensures Strip(Marker(closing)) == Marker(closing)
  {
    StripIsIdempotent(closing);
    assert |STOPPED| == 4 && STOPPED[0] == '已' && STOPPED[3] == '。';
    assert LStrip(STOPPED) == STOPPED && RStrip(STOPPED) == STOPPED;
  }

  /** The last message is the assistant's and says this text, spaces at its ends aside. */
  predicate SaysLast(ms: seq<Message>, text: string) {
    |ms| > 0 && ms[|ms| - 1].role == Assistant && Strip(MessageText(ms[|ms| - 1])) == text
  }

  lemma {:induction false} MarkedSaysLast(ms: seq<Message>, text: string)
    requires Strip(text) == text
    ensures SaysLast(Marked(ms, text), text)
  {
    OneText(text);
    assert MessageText(Note(Assistant, text)) == text;
  }

  /** Whatever a stopped turn holds, what is stored of it ends with the assistant saying the closing
      text. */
  lemma {:induction false} TranscriptEndsWithClosing(ms: seq<Message>, at: nat, text: string, closing: string)
    ensures SaysLast(StoppedTranscript(ms, at, text, closing), Marker(closing))
  {
    MarkerIsStripped(closing);
    MarkedSaysLast(Complete(TurnMessages(ms, at, text)), Marker(closing));
  }

  // ---- The loops --------------------------------------------------------------------

  method CurrentTurnMessages(ms: seq<Message>, at: nat, text: string) returns (turn: seq<Message>)
    ensures turn == TurnMessages(ms, at, text)
  {
    if at < |ms| {
      return ms[at..];
    }
    var expected, index := Strip(text), |ms|;
    while index > 0
      invariant 0 <= index <= |ms|
      invariant LastStart(ms, expected, |ms|) == LastStart(ms, expected, index)
    {
      index := index - 1;
      if StartsTurn(ms[index], expected) {
        assert LastStart(ms, expected, index + 1) == Some(index);
        return ms[index..];
      }
    }
    turn := [Note(User, text)];
  }

  method FilterBlocks(blocks: seq<Block>, answered: set<string>, retained: set<string>)
    returns (kept: seq<Block>, ids: set<string>, dropped: nat)
    ensures kept == KeepBlocks(blocks, answered, retained, |blocks|)
    ensures ids == retained + CallsKept(blocks, answered, |blocks|)
    ensures dropped == Dropped(blocks, answered, |blocks|)
  {
    kept, ids, dropped := [], retained, 0;
    for n := 0 to |blocks|
      invariant kept == KeepBlocks(blocks, answered, retained, n)
      invariant ids == retained + CallsKept(blocks, answered, n)
      invariant dropped == Dropped(blocks, answered, n)
    {
      var b := blocks[n];
      match b
      case ToolUse(id, _, _) =>
        if id != "" && id in answered {
          kept, ids := kept + [b], ids + {id};
        } else {
          dropped := dropped + 1;
        }
      case ToolResult(id, _) =>
        if id != "" && id in ids {
          kept := kept + [b];
        }
      case _ =>
        kept := kept + [b];
    }
  }

  method FilterMessage(m: Message, answered: set<string>, retained: set<string>)
    returns (kept: seq<Message>, ids: set<string>, dropped: nat)
    ensures kept == KeptOf(m, answered, retained)
    ensures ids == retained + CallsKept(BlocksOf(m), answered, |BlocksOf(m)|)
    ensures dropped == Dropped(BlocksOf(m), answered, |BlocksOf(m)|)
  {
    if !m.content.Blocks? {
      return [m], retained, 0;
    }
    var blocks: seq<Block>;
    blocks, ids, dropped := FilterBlocks(m.content.blocks, answered, retained);
    kept := if blocks == [] then [] else [m.(content := Blocks(blocks))];
  }

  lemma {:induction false} KeepNext(ms: seq<Message>, answered: set<string>, n: nat)
    requires n < |ms|
    ensures KeepMessages(ms, answered, n + 1)
        == KeepMessages(ms, answered, n) + KeptOf(ms[n], answered, Retained(ms, answered, n))
    ensures var bs := BlocksOf(ms[n]);
      && Retained(ms, answered, n + 1) == Retained(ms, answered, n) + CallsKept(bs, answered, |bs|)
      && CallsDropped(ms, answered, n + 1) == CallsDropped(ms, answered, n) + Dropped(bs, answered, |bs|)
  {
  }

  method FilterMessages(ms: seq<Message>, answered: set<string>)
      returns (saved: seq<Message>, retained: set<string>, dropped: nat)
    ensures saved == KeepMessages(ms, answered, |ms|)
    ensures retained == Retained(ms, answered, |ms|) && dropped == CallsDropped(ms, answered, |ms|)
  {
    saved, retained, dropped := [], {}, 0;
    for n := 0 to |ms|
      invariant saved == KeepMessages(ms, answered, n)
      invariant retained == Retained(ms, answered, n)
      invariant dropped == CallsDropped(ms, answered, n)
    {
      KeepNext(ms, answered, n);
      var kept, ids, without := FilterMessage(ms[n], answered, retained);
      saved, retained, dropped := saved + kept, ids, dropped + without;
    }
  }

  /** What is stored of a stopped turn, how many calls of it, and how many were left out. */
  method BuildStoppedTurnTranscript(ms: seq<Message>, at: nat, text: string, closing: string)
    returns (saved: seq<Message>, calls: nat, dropped: nat)
    ensures saved == StoppedTranscript(ms, at, text, closing)
    ensures var turn := TurnMessages(ms, at, text);
      calls == |Retained(turn, AnsweredIds(turn), |turn|)| && dropped == CallsDropped(turn, AnsweredIds(turn), |turn|)
  {
    var turn := CurrentTurnMessages(ms, at, text);
    var retained: set<string>;
    saved, retained, dropped := FilterMessages(turn, AnsweredIds(turn));
    if !EndsWith(saved, Marker(closing)) {
      saved := saved + [Note(Assistant, Marker(closing))];
    }
    calls := |retained|;
  }

  // ---- No call without its result ---------------------------------------------------

  /** All blocks of these messages, in order. */
  function Flat(ms: seq<Message>): seq<Block> {
    if ms == [] then [] else Flat(ms[..|ms| - 1]) + BlocksOf(ms[|ms| - 1])
  }

  /** Every result comes after a call with its id. */
  ghost predicate ResultsHaveCalls(bs: seq<Block>) {
    forall q | 0 <= q < |bs| && bs[q].ToolResult? ::
      bs[q].toolUseId != "" && exists p :: 0 <= p < q && bs[p].ToolUse? && bs[p].id == bs[q].toolUseId
  }

  /** Every call comes before a result with its id. */
  ghost predicate CallsHaveResults(bs: seq<Block>) {
    forall p | 0 <= p < |bs| && bs[p].ToolUse? :: AnsweredAfter(bs, p, bs[p].id)
  }

  ghost predicate AnsweredAfter(bs: seq<Block>, p: int, id: string) {
    exists q :: p < q < |bs| && q >= 0 && bs[q].ToolResult? && bs[q].toolUseId == id
  }

  /** No call comes after the last of the results with its id. */
  ghost predicate NoLateCalls(bs: seq<Block>) {
    forall p | 0 <= p < |bs| && bs[p].ToolUse? && bs[p].id != "" && AnsweredAfter(bs, -1, bs[p].id) ::
      AnsweredAfter(bs, p, bs[p].id)
  }

  lemma {:induction false} CallsKeptConcat(a: seq<Block>, b: seq<Block>, answered: set<string>, n: nat)
    requires n <= |b|
    ensures CallsKept(a + b, answered, |a| + n) == CallsKept(a, answered, |a|) + CallsKept(b, answered, n)
  {
    if n > 0 {
      CallsKeptConcat(a, b, answered, n - 1);
    } else {
      CallsKeptPrefix(a, b, answered, |a|);
    }
  }

  lemma {:induction false} CallsKeptPrefix(a: seq<Block>, b: seq<Block>, answered: set<string>, n: nat)
    requires n <= |a|
    ensures CallsKept(a + b, answered, n) == CallsKept(a, answered, n)
  {
    if n > 0 {
      CallsKeptPrefix(a, b, answered, n - 1);
    }
  }

  lemma {:induction false} KeepPrefix(a: seq<Block>, b: seq<Block>, answered: set<string>, retained: set<string>,
        n: nat)
    requires n <= |a|
    ensures KeepBlocks(a + b, answered, retained, n) == KeepBlocks(a, answered, retained, n)
  {
    if n > 0 {
      KeepPrefix(a, b, answered, retained, n - 1);
      CallsKeptPrefix(a, b, answered, n - 1);
    }
  }

  lemma {:induction false} KeepStep(bs: seq<Block>, answered: set<string>, retained: set<string>, p: nat)
    requires p < |bs|
    ensures KeepBlocks(bs, answered, retained, p + 1) == KeepBlocks(bs, answered, retained, p)
        + if Stays(bs[p], answered, retained + CallsKept(bs, answered, p)) then [bs[p]] else []
  {
  }

  lemma {:induction false} KeepConcat(a: seq<Block>, b: seq<Block>, answered: set<string>, retained: set<string>,
        n: nat)
    requires n <= |b|
    ensures KeepBlocks(a + b, answered, retained, |a| + n)
         == KeepBlocks(a, answered, retained, |a|) + KeepBlocks(b, answered, retained + CallsKept(a, answered, |a|), n)
  {
    if n == 0 {
      KeepPrefix(a, b, answered, retained, |a|);
    } else {
      KeepConcat(a, b, answered, retained, n - 1);
      CallsKeptConcat(a, b, answered, n - 1);
      var head, all, at := CallsKept(a, answered, |a|), a + b, |a| + n - 1;
      assert all[at] == b[n - 1];
      assert retained + CallsKept(all, answered, at) == (retained + head) + CallsKept(b, answered, n - 1);
      KeepStep(all, answered, retained, at);
      KeepStep(b, answered, retained + head, n - 1);
    }
  }

  lemma {:induction false} KeepMore(before: seq<Block>, bs: seq<Block>, answered: set<string>)
    ensures var retained := CallsKept(before, answered, |before|);
      && CallsKept(before + bs, answered, |before + bs|) == retained + CallsKept(bs, answered, |bs|)
      && KeepBlocks(before + bs, answered, {}, |before + bs|)
        == KeepBlocks(before, answered, {}, |before|) + KeepBlocks(bs, answered, retained, |bs|)
  {
    KeepConcat(before, bs, answered, {}, |bs|);
    CallsKeptConcat(before, bs, answered, |bs|);
    assert {} + CallsKept(before, answered, |before|) == CallsKept(before, answered, |before|);
  }

  lemma {:induction false} FlatMore(ms: seq<Message>, m: Message)
    ensures Flat(ms + [m]) == Flat(ms) + BlocksOf(m)
  {
    assert (ms + [m])[..|ms|] == ms;
  }

  lemma {:induction false} InAnyGrouping(a: seq<Block>, b: seq<Block>, c: seq<Block>)
    ensures (a + b) + c == a + (b + c)
  {
  }

  lemma {:induction false} FlatConcat(a: seq<Message>, b: seq<Message>)
    ensures Flat(a + b) == Flat(a) + Flat(b)
  {
    if b == [] {
      assert a + b == a;
    } else {
      var rest, last := b[..|b| - 1], b[|b| - 1];
      FlatConcat(a, rest);
      FlatMore(a + rest, last);
      FlatMore(rest, last);
      assert b == rest + [last] && a + b == (a + rest) + [last];
      InAnyGrouping(Flat(a), Flat(rest), BlocksOf(last));
    }
  }

  lemma {:induction false} FlatKeptOf(m: Message, answered: set<string>, retained: set<string>)
    ensures Flat(KeptOf(m, answered, retained)) == KeepBlocks(BlocksOf(m), answered, retained, |BlocksOf(m)|)
  {
    var kept := KeptOf(m, answered, retained);
    if kept != [] {
      assert kept[..0] == [];
      assert Flat(kept) == [] + BlocksOf(kept[0]);
    }
  }

  lemma {:induction false} FlatKeptStep(kept: seq<Message>, more: seq<Message>, before: seq<Block>, bs: seq<Block>,
        answered: set<string>, retained: set<string>)
    requires Flat(kept) == KeepBlocks(before, answered, {}, |before|)
    requires retained == CallsKept(before, answered, |before|)
    requires Flat(more) == KeepBlocks(bs, answered, retained, |bs|)
    ensures Flat(kept + more) == KeepBlocks(before + bs, answered, {}, |before + bs|)
    ensures retained + CallsKept(bs, answered, |bs|) == CallsKept(before + bs, answered, |before + bs|)
  {
    FlatConcat(kept, more);
    KeepMore(before, bs, answered);
  }

  lemma {:induction false} KeepOfPrefix(rest: seq<Message>, m: Message, answered: set<string>, n: nat)
    requires n <= |rest|
    ensures KeepMessages(rest + [m], answered, n) == KeepMessages(rest, answered, n)
    ensures Retained(rest + [m], answered, n) == Retained(rest, answered, n)
  {
    if n > 0 {
      KeepOfPrefix(rest, m, answered, n - 1);
    }
  }

  /** Message by message, exactly the blocks are kept that stay in the flat list of blocks. */
  lemma {:induction false} FlatKept(ms: seq<Message>, answered: set<string>)
    ensures Flat(KeepMessages(ms, answered, |ms|)) == KeepBlocks(Flat(ms), answered, {}, |Flat(ms)|)
    ensures Retained(ms, answered, |ms|) == CallsKept(Flat(ms), answered, |Flat(ms)|)
    decreases |ms|
  {
    if ms != [] {
      var rest, m := ms[..|ms| - 1], ms[|ms| - 1];
      assert rest + [m] == ms;
      FlatKept(rest, answered);
      OneMoreKept(rest, m, answered);
    }
  }

  lemma {:induction false} OneMoreKept(rest: seq<Message>, m: Message, answered: set<string>)
    requires Flat(KeepMessages(rest, answered, |rest|)) == KeepBlocks(Flat(rest), answered, {}, |Flat(rest)|)
    requires Retained(rest, answered, |rest|) == CallsKept(Flat(rest), answered, |Flat(rest)|)
    ensures var ms := rest + [m];
      && Flat(KeepMessages(ms, answered, |ms|)) == KeepBlocks(Flat(ms), answered, {}, |Flat(ms)|)
      && Retained(ms, answered, |ms|) == CallsKept(Flat(ms), answered, |Flat(ms)|)
  {
    var kept, retained := KeepMessages(rest, answered, |rest|), Retained(rest, answered, |rest|);
    KeepOfPrefix(rest, m, answered, |rest|);
    KeepNext(rest + [m], answered, |rest|);
    FlatMore(rest, m);
    FlatKeptOf(m, answered, retained);
    FlatKeptStep(kept, KeptOf(m, answered, retained), Flat(rest), BlocksOf(m), answered, retained);
  }

  // ---- How many calls are kept ------------------------------------------------------

  function CallCount(ms: seq<Message>): nat {
    |UsesOf(Flat(ms))|
  }

  lemma {:induction false} OneBlockUses(b: Block)
    ensures UsesOf([b]) == if b.ToolUse? then [b.id] else []
  {
    assert [b][1..] == [];
  }

  lemma {:induction false} BlocksAreConserved(bs: seq<Block>, answered: set<string>, retained: set<string>, n: nat)
    requires n <= |bs|
    ensures |UsesOf(KeepBlocks(bs, answered, retained, n))| + Dropped(bs, answered, n) == |UsesOf(bs[..n])|
  {
    if n > 0 {
      var b := bs[n - 1];
      BlocksAreConserved(bs, answered, retained, n - 1);
      assert bs[..n] == bs[..n - 1] + [b];
      UsesConcat(bs[..n - 1], [b]);
      UsesConcat(KeepBlocks(bs, answered, retained, n - 1), [b]);
      UsesConcat(KeepBlocks(bs, answered, retained, n - 1), []);
      OneBlockUses(b);
    }
  }

  lemma {:induction false} CallsAdd(ms: seq<Message>, more: seq<Message>)
    ensures CallCount(ms + more) == CallCount(ms) + CallCount(more)
  {
    FlatConcat(ms, more);
    UsesConcat(Flat(ms), Flat(more));
  }

  lemma {:induction false} MessageIsConserved(m: Message, answered: set<string>, retained: set<string>)
    ensures CallCount(KeptOf(m, answered, retained)) + Dropped(BlocksOf(m), answered, |BlocksOf(m)|) == CallCount([m])
  {
    var bs := BlocksOf(m);
    FlatKeptOf(m, answered, retained);
    BlocksAreConserved(bs, answered, retained, |bs|);
    assert bs[..|bs|] == bs;
    assert [m][..0] == [] && Flat([m]) == [] + bs == bs;
  }

  lemma {:induction false} DroppedOfPrefix(rest: seq<Message>, m: Message, answered: set<string>, n: nat)
    requires n <= |rest|
    ensures CallsDropped(rest + [m], answered, n) == CallsDropped(rest, answered, n)
  {
    if n > 0 {
      DroppedOfPrefix(rest, m, answered, n - 1);
    }
  }

  lemma {:induction false} OneMoreConserved(rest: seq<Message>, m: Message, answered: set<string>)
    requires CallCount(KeepMessages(rest, answered, |rest|)) + CallsDropped(rest, answered, |rest|) == CallCount(rest)
    ensures var ms := rest + [m];
      CallCount(KeepMessages(ms, answered, |ms|)) + CallsDropped(ms, answered, |ms|) == CallCount(ms)
  {
    var kept, retained := KeepMessages(rest, answered, |rest|), Retained(rest, answered, |rest|);
    KeepOfPrefix(rest, m, answered, |rest|);
    DroppedOfPrefix(rest, m, answered, |rest|);
    KeepNext(rest + [m], answered, |rest|);
    CallsAdd(kept, KeptOf(m, answered, retained));
    MessageIsConserved(m, answered, retained);
    CallsAdd(rest, [m]);
  }

  /** Every call of a stopped turn is stored or counted as dropped. */
  lemma {:induction false} CallsAreConserved(ms: seq<Message>, answered: set<string>)
    ensures CallCount(KeepMessages(ms, answered, |ms|)) + CallsDropped(ms, answered, |ms|) == CallCount(ms)
    decreases |ms|
  {
    if ms != [] {
      var rest, m := ms[..|ms| - 1], ms[|ms| - 1];
      assert rest + [m] == ms;
      CallsAreConserved(rest, answered);
      OneMoreConserved(rest, m, answered);
    }
  }

  // ---- Where a kept block comes from ------------------------------------------------

  predicate StaysAt(bs: seq<Block>, answered: set<string>, p: nat)
    requires p < |bs|
  {
    Stays(bs[p], answered, CallsKept(bs, answered, p))
  }

  /** Where block p stands among what is kept. */
  function Place(bs: seq<Block>, answered: set<string>, p: nat): nat
    requires p <= |bs|
  {
    |KeepBlocks(bs, answered, {}, p)|
  }

  lemma {:induction false} KeptStep(bs: seq<Block>, answered: set<string>, p: nat)
    requires p < |bs|
    ensures KeepBlocks(bs, answered, {}, p + 1) == KeepBlocks(bs, answered, {}, p)
        + if StaysAt(bs, answered, p) then [bs[p]] else []
  {
    assert {} + CallsKept(bs, answered, p) == CallsKept(bs, answered, p);
  }

  lemma {:induction false} KeptAt(bs: seq<Block>, answered: set<string>, p: nat, n: nat)
    requires p < n <= |bs|
    ensures Place(bs, answered, p) <= Place(bs, answered, n)
    ensures StaysAt(bs, answered, p) ==>
      Place(bs, answered, p) < Place(bs, answered, n)
          && KeepBlocks(bs, answered, {}, n)[Place(bs, answered, p)] == bs[p]
  {
    KeptStep(bs, answered, n - 1);
    if p < n - 1 {
      KeptAt(bs, answered, p, n - 1);
    }
  }

  lemma {:induction false} KeptFrom(bs: seq<Block>, answered: set<string>, q: nat, n: nat) returns (p: nat)
    requires n <= |bs| && q < Place(bs, answered, n)
    ensures p < n && StaysAt(bs, answered, p) && Place(bs, answered, p) == q
    ensures KeepBlocks(bs, answered, {}, n)[q] == bs[p]
  {
    KeptStep(bs, answered, n - 1);
    if q < Place(bs, answered, n - 1) {
      p := KeptFrom(bs, answered, q, n - 1);
    } else {
      p := n - 1;
    }
  }

  lemma {:induction false} CallsKeptIff(bs: seq<Block>, answered: set<string>, n: nat, id: string)
    requires n <= |bs|
    ensures id in CallsKept(bs, answered, n) <==>
      id != "" && id in answered && exists p :: 0 <= p < n && bs[p].ToolUse? && bs[p].id == id
  {
    if n > 0 {
      CallsKeptIff(bs, answered, n - 1, id);
    }
  }

  /** Whatever the messages, no result is stored without its call. */
  lemma {:induction false} KeptResultsHaveCalls(bs: seq<Block>, answered: set<string>)
    ensures ResultsHaveCalls(KeepBlocks(bs, answered, {}, |bs|))
  {
    var kept := KeepBlocks(bs, answered, {}, |bs|);
    forall q | 0 <= q < |kept| && kept[q].ToolResult?
      ensures kept[q].toolUseId != "" && exists p :: 0 <= p < q && kept[p].ToolUse? && kept[p].id == kept[q].toolUseId
    {
      var at := KeptFrom(bs, answered, q, |bs|);
      var id := bs[at].toolUseId;
      CallsKeptIff(bs, answered, at, id);
      var p :| 0 <= p < at && bs[p].ToolUse? && bs[p].id == id;
      assert StaysAt(bs, answered, p);
      KeptAt(bs, answered, p, |bs|);
      KeptAt(bs, answered, p, at);
    }
  }

  ghost predicate AnswersExactly(bs: seq<Block>, answered: set<string>) {
    forall id :: id in answered <==> id != "" && AnsweredAfter(bs, -1, id)
  }

  lemma {:induction false} KeptCallIsAnswered(bs: seq<Block>, answered: set<string>, p: nat)
    requires p < |bs| && bs[p].ToolUse? && StaysAt(bs, answered, p)
    ensures AnsweredAfter(KeepBlocks(bs, answered, {}, |bs|), Place(bs, answered, p), bs[p].id)
        <==> AnsweredAfter(bs, p, bs[p].id)
  {
    var kept, at, id := KeepBlocks(bs, answered, {}, |bs|), Place(bs, answered, p), bs[p].id;
    if AnsweredAfter(bs, p, id) {
      var q :| p < q < |bs| && bs[q].ToolResult? && bs[q].toolUseId == id;
      CallsKeptIff(bs, answered, q, id);
      KeptAt(bs, answered, q, |bs|);
      KeptAt(bs, answered, p, q);
      assert kept[Place(bs, answered, q)] == bs[q];
    }
    if AnsweredAfter(kept, at, id) {
      var q :| at < q < |kept| && kept[q].ToolResult? && kept[q].toolUseId == id;
      var from := KeptFrom(bs, answered, q, |bs|);
      if from < p {
        KeptAt(bs, answered, from, p);
      }
      assert p < from;
    }
  }

  /** Every stored call is followed by its result exactly when no call comes after the last
      result with its id. */
  lemma {:induction false} KeptCallsHaveResultsIff(bs: seq<Block>, answered: set<string>)
    requires AnswersExactly(bs, answered)
    ensures CallsHaveResults(KeepBlocks(bs, answered, {}, |bs|)) <==> NoLateCalls(bs)
  {
    var kept := KeepBlocks(bs, answered, {}, |bs|);
    if CallsHaveResults(kept) {
      forall p | 0 <= p < |bs| && bs[p].ToolUse? && bs[p].id != "" && AnsweredAfter(bs, -1, bs[p].id)
        ensures AnsweredAfter(bs, p, bs[p].id)
      {
        KeptAt(bs, answered, p, |bs|);
        KeptCallIsAnswered(bs, answered, p);
      }
    }
    if NoLateCalls(bs) {
      forall q | 0 <= q < |kept| && kept[q].ToolUse?
        ensures AnsweredAfter(kept, q, kept[q].id)
      {
        var p := KeptFrom(bs, answered, q, |bs|);
        KeptCallIsAnswered(bs, answered, p);
      }
    }
  }

  // ---- The whole transcript ---------------------------------------------------------

  lemma {:induction false} BlockInFlat(ms: seq<Message>, b: Block)
    ensures b in Flat(ms) <==> exists m :: m in ms && b in BlocksOf(m)
  {
    if ms != [] {
      var rest, last := ms[..|ms| - 1], ms[|ms| - 1];
      BlockInFlat(rest, b);
      assert forall m :: m in ms <==> m in rest || m == last;
    }
  }

  lemma {:induction false} AnsweredIdsAreExact(ms: seq<Message>)
    ensures AnswersExactly(Flat(ms), AnsweredIds(ms))
  {
    var bs := Flat(ms);
    forall id
      ensures id in AnsweredIds(ms) <==> id != "" && AnsweredAfter(bs, -1, id)
    {
      if id in AnsweredIds(ms) {
        var m, b :| m in ms && b in BlocksOf(m) && b.ToolResult? && b.toolUseId == id;
        BlockInFlat(ms, b);
        var q :| 0 <= q < |bs| && bs[q] == b;
        assert AnsweredAfter(bs, -1, id);
      }
      if id != "" && AnsweredAfter(bs, -1, id) {
        var q :| 0 <= q < |bs| && bs[q].ToolResult? && bs[q].toolUseId == id;
        BlockInFlat(ms, bs[q]);
      }
    }
  }

  lemma {:induction false} TextChangesNoPairs(bs: seq<Block>, text: string)
    ensures ResultsHaveCalls(bs + [Text(text)]) <==> ResultsHaveCalls(bs)
    ensures CallsHaveResults(bs + [Text(text)]) <==> CallsHaveResults(bs)
  {
    var all := bs + [Text(text)];
    assert !all[|bs|].ToolUse? && !all[|bs|].ToolResult?;
    assert forall i | 0 <= i < |bs| :: all[i] == bs[i];
    forall p, id | 0 <= p < |bs|
      ensures AnsweredAfter(all, p, id) <==> AnsweredAfter(bs, p, id)
    {
      if AnsweredAfter(bs, p, id) {
        var q :| p < q < |bs| && bs[q].ToolResult? && bs[q].toolUseId == id;
        assert all[q] == bs[q];
      }
    }
    if ResultsHaveCalls(all) {
      forall q | 0 <= q < |bs| && bs[q].ToolResult?
        ensures bs[q].toolUseId != "" && exists p :: 0 <= p < q && bs[p].ToolUse? && bs[p].id == bs[q].toolUseId
      {
        assert all[q] == bs[q];
      }
    }
    if CallsHaveResults(all) {
      forall p | 0 <= p < |bs| && bs[p].ToolUse?
        ensures AnsweredAfter(bs, p, bs[p].id)
      {
        assert all[p] == bs[p];
      }
    }
  }

  /** What is stored of a stopped turn has no result without its call; and no call without its
      result exactly when the turn has no call after the last result with its id. */
  lemma {:induction false} StoppedTranscriptIsPairedIff(ms: seq<Message>, at: nat, text: string, closing: string)
    ensures ResultsHaveCalls(Flat(StoppedTranscript(ms, at, text, closing)))
    ensures CallsHaveResults(Flat(StoppedTranscript(ms, at, text, closing)))
        <==> NoLateCalls(Flat(TurnMessages(ms, at, text)))
  {
    var turn, mark := TurnMessages(ms, at, text), Marker(closing);
    var answered := AnsweredIds(turn);
    AnsweredIdsAreExact(turn);
    FlatKept(turn, answered);
    KeptResultsHaveCalls(Flat(turn), answered);
    KeptCallsHaveResultsIff(Flat(turn), answered);
    TextChangesNoPairs(Flat(Complete(turn)), mark);
    assert (Complete(turn) + [Note(Assistant, mark)])[..|Complete(turn)|] == Complete(turn);
  }

  /** A turn stopped in its second round, whose call has the id of the first round's. */
  function StoppedInSecondRound(text: string, id: string): seq<Message> {
    [Note(User, text)] + [Message(Assistant, Blocks([ToolUse(id, "", "")]))]
    + [Message(User, Blocks([ToolResult(id, "")]))] + [Message(Assistant, Blocks([ToolUse(id, "", "")]))]
  }

  lemma {:induction false} FlatStoppedInSecondRound(text: string, id: string)
    ensures Flat(StoppedInSecondRound(text, id))
        == [Text(text), ToolUse(id, "", ""), ToolResult(id, ""), ToolUse(id, "", "")]
  {
    var user, call, result := Note(User, text), Message(Assistant, Blocks([ToolUse(id, "", "")])),
        Message(User, Blocks([ToolResult(id, "")]));
    FlatMore([], user);
    assert [] + [user] == [user];
    FlatMore([user], call);
    FlatMore([user] + [call], result);
    FlatMore([user] + [call] + [result], call);
  }

  lemma {:induction false} SecondCallIsLate(bs: seq<Block>, id: string)
    requires |bs| == 4 && id != "" && bs[2].ToolResult? && bs[2].toolUseId == id && bs[3].ToolUse? && bs[3].id == id
    ensures !NoLateCalls(bs)
  {
    assert AnsweredAfter(bs, -1, id) && !AnsweredAfter(bs, 3, id);
  }

  /** The case is real: a call that repeats an id already answered is stored without a result
      when the turn is stopped before it has one. */
  lemma {:induction false} LateCallIsStored(text: string, id: string, closing: string)
    requires id != ""
    ensures !CallsHaveResults(Flat(StoppedTranscript(StoppedInSecondRound(text, id), 0, text, closing)))
  {
    var ms := StoppedInSecondRound(text, id);
    StoppedTranscriptIsPairedIff(ms, 0, text, closing);
    assert TurnMessages(ms, 0, text) == ms;
    FlatStoppedInSecondRound(text, id);
    SecondCallIsLate(Flat(ms), id);
  }
}
