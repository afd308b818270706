/** What a turn hands on to the next one, by how it ended. */
module StoppedTurns {
  import opened Messages
  import opened Selection
  import opened History
  import opened TurnLoop
  import opened TurnSafety
  import opened TurnStorage
  import opened Transcript

  /** A completed turn stores its history; a stopped one what is complete of it, after what was
      stored before; a failed one only the user's text and the closing message. A turn whose loop
      has not ended stands for its history so far. */
  function HandedOn(t: Turn, text: string, closing: string): seq<Message> {
    var stored := t.chat.stored;
    match t.control.status
    case Stopped => stored.history + StoppedTranscript(t.chat.messages, t.chat.userIndex, text, closing)
    case Overflowed => stored.history + Minimal(stored.hasTurn, text, closing)
    case Errored => stored.history + Minimal(stored.hasTurn, text, closing)
    case _ => t.chat.messages
  }

  function Minimal(hasTurn: bool, text: string, closing: string): seq<Message> {
    (if hasTurn then [] else [Note(User, text)]) + [Note(Assistant, closing)]
  }

  /** A completed turn hands on its whole history; one that overflowed or failed what was stored
      before it, with the closing message, and with the user's text unless a checkpoint holds it. */
  lemma {:induction false} UnstoppedTurnHandsOn(t: Turn, text: string, closing: string)
    ensures t.control.status.Completed? ==> HandedOn(t, text, closing) == t.chat.messages
    ensures t.control.status.Overflowed? || t.control.status.Errored? ==>
      HandedOn(t, text, closing) == t.chat.stored.history
        + (if t.chat.stored.hasTurn then [] else [Message(User, Blocks([Text(text)]))])
        + [Message(Assistant, Blocks([Text(closing)]))]
  {
    var before, last := t.chat.stored.history, [Note(Assistant, closing)];
    assert before + ([] + last) == before + [] + last;
    assert before + ([Note(User, text)] + last) == before + [Note(User, text)] + last;
  }

  /** A stopped turn hands on what was stored before it, and then its transcript. */
  lemma {:induction false} StoppedTurnHandsOn(t: Turn, text: string, closing: string)
    requires t.control.status.Stopped?
    ensures var before, next := t.chat.stored.history, HandedOn(t, text, closing);
      && before <= next && next[|before|..] == StoppedTranscript(t.chat.messages, t.chat.userIndex, text, closing)
  {
  }

  // ---- Of a paired history, only empty messages are left out ------------------------

  function Filled(ms: seq<Message>): set<nat> {
    set i: nat | i < |ms| && ms[i].content != Blocks([])
  }

  lemma {:induction false} IdsOfBlock(bs: seq<Block>, k: nat)
    requires k < |bs|
    ensures bs[k].ToolUse? ==> bs[k].id in UsesOf(bs)
    ensures bs[k].ToolResult? ==> bs[k].toolUseId in ResultsOf(bs)
  {
    if k > 0 {
      IdsOfBlock(bs[1..], k - 1);
    }
  }

  lemma {:induction false} BlockOfId(bs: seq<Block>, id: string)
    ensures id in UsesOf(bs) ==> exists k :: 0 <= k < |bs| && bs[k].ToolUse? && bs[k].id == id
    ensures id in ResultsOf(bs) ==> exists k :: 0 <= k < |bs| && bs[k].ToolResult? && bs[k].toolUseId == id
  {
    if bs != [] {
      BlockOfId(bs[1..], id);
      assert forall k | 0 <= k < |bs[1..]| :: bs[1..][k] == bs[k + 1];
    }
  }

  lemma {:induction false} CallsKeptAll(bs: seq<Block>, answered: set<string>)
    requires "" !in UsesOf(bs) && forall x | x in UsesOf(bs) :: x in answered
    ensures forall x | x in UsesOf(bs) :: x in CallsKept(bs, answered, |bs|)
  {
    forall x | x in UsesOf(bs)
      ensures x in CallsKept(bs, answered, |bs|)
    {
      BlockOfId(bs, x);
      CallsKeptIff(bs, answered, |bs|, x);
    }
  }

  lemma {:induction false} AllBlocksStay(bs: seq<Block>, answered: set<string>, retained: set<string>, n: nat)
    requires n <= |bs| && "" !in UsesOf(bs) && "" !in ResultsOf(bs)
    requires forall x | x in UsesOf(bs) :: x in answered
    requires forall x | x in ResultsOf(bs) :: x in retained
    ensures KeepBlocks(bs, answered, retained, n) == bs[..n]
  {
    if n > 0 {
      AllBlocksStay(bs, answered, retained, n - 1);
      IdsOfBlock(bs, n - 1);
      assert bs[..n] == bs[..n - 1] + [bs[n - 1]];
    }
  }

  lemma {:induction false} WholeMessageStays(m: Message, answered: set<string>, retained: set<string>)
    requires "" !in UseIds(m) && "" !in ResIds(m)
    requires forall x | x in UseIds(m) :: x in answered
    requires forall x | x in ResIds(m) :: x in retained
    ensures KeptOf(m, answered, retained) == if m.content == Blocks([]) then [] else [m]
    ensures forall x | x in UseIds(m) :: x in CallsKept(BlocksOf(m), answered, |BlocksOf(m)|)
  {
    var bs := BlocksOf(m);
    AllBlocksStay(bs, answered, retained, |bs|);
    CallsKeptAll(bs, answered);
    assert bs[..|bs|] == bs;
  }

  lemma {:induction false} ResultAnswers(ms: seq<Message>, j: nat, id: string)
    requires j < |ms| && id in ResIds(ms[j]) && id != ""
    ensures id in AnsweredIds(ms)
  {
    var bs := BlocksOf(ms[j]);
    BlockOfId(bs, id);
    var k :| 0 <= k < |bs| && bs[k].ToolResult? && bs[k].toolUseId == id;
    assert ms[j] in ms && bs[k] in bs;
  }

  lemma {:induction false} CallsAreAnswered(ms: seq<Message>, i: nat)
    requires Ordered(Shapes(ms)) && i < |ms|
    ensures "" !in UseIds(ms[i]) && "" !in ResIds(ms[i])
    ensures ResIds(ms[i]) == if i == 0 then [] else UseIds(ms[i - 1])
    ensures forall x | x in UseIds(ms[i]) :: x in AnsweredIds(ms)
  {
    var ss := Shapes(ms);
    OrderedAt(ss, i);
    if i > 0 {
      OrderedAt(ss, i - 1);
    }
    forall x | x in UseIds(ms[i])
      ensures x in AnsweredIds(ms)
    {
      assert Open(ss) == [] && ss[i].uses != [];
      OrderedAt(ss, i + 1);
      ResultAnswers(ms, i + 1, x);
    }
  }

  lemma {:induction false} KeptIsPicked(ms: seq<Message>, n: nat)
    requires Ordered(Shapes(ms)) && n <= |ms|
    ensures KeepMessages(ms, AnsweredIds(ms), n) == Pick(ms, Filled(ms), 0, n)
    ensures n > 0 ==> forall x | x in UseIds(ms[n - 1]) :: x in Retained(ms, AnsweredIds(ms), n)
  {
    if n > 0 {
      KeptIsPicked(ms, n - 1);
      CallsAreAnswered(ms, n - 1);
      KeepNext(ms, AnsweredIds(ms), n - 1);
      WholeMessageStays(ms[n - 1], AnsweredIds(ms), Retained(ms, AnsweredIds(ms), n - 1));
    }
  }

  /** Of a paired history nothing but messages without content is left out. */
  lemma {:induction false} CompleteIsPicked(ms: seq<Message>)
    requires Ordered(Shapes(ms))
    ensures Complete(ms) == Pick(ms, Filled(ms), 0, |ms|)
  {
    KeptIsPicked(ms, |ms|);
  }

  lemma {:induction false} ToolsFill(ms: seq<Message>, i: nat)
    requires i < |ms| && (Shapes(ms)[i].uses != [] || Shapes(ms)[i].answers != [])
    ensures i in Filled(ms)
  {
    assert BlocksOf(ms[i]) != [];
  }

  lemma {:induction false} FilledKeepsRounds(ms: seq<Message>)
    requires Ordered(Shapes(ms))
    ensures KeepsRounds(Shapes(ms), Filled(ms))
  {
    var ss := Shapes(ms);
    forall i: nat | i < |ss| && i in Filled(ms) && ss[i].uses != []
      ensures i + 1 in Filled(ms)
    {
      assert Open(ss) == [];
      OrderedAt(ss, i + 1);
      ToolsFill(ms, i + 1);
    }
    forall i: nat | i < |ss| && i in Filled(ms) && ss[i].answers != []
      ensures i > 0 && i - 1 in Filled(ms)
    {
      OrderedAt(ss, i);
      ToolsFill(ms, i - 1);
    }
  }

  lemma {:induction false} CompleteShapes(ms: seq<Message>)
    requires Ordered(Shapes(ms))
    ensures Shapes(Complete(ms)) == Select(Shapes(ms), Filled(ms), |ms|)
    ensures Ordered(Shapes(Complete(ms)))
    ensures forall m | m in Complete(ms) :: m in ms
  {
    CompleteIsPicked(ms);
    ShapesOfPick(ms, Filled(ms), |ms|);
    FilledKeepsRounds(ms);
    SelectedOrdered(Shapes(ms), Filled(ms));
    PickMembers(ms, Filled(ms), 0, |ms|);
  }

  // ---- A turn's own messages --------------------------------------------------------

  lemma {:induction false} SuffixAnswersInOrder(ss: seq<Shape>, at: nat)
    requires Ordered(ss) && at < |ss| && ss[at].answers == []
    ensures AnswersInOrder(ss[at..])
  {
    var rest := ss[at..];
    assert rest[0] == ss[at];
    forall i, j | 0 <= i < |rest| - 1 && j == i + 1
      ensures rest[j].answers == rest[i].uses
    {
      assert rest[j].answers == ss[at + j].answers && rest[i].uses == ss[at + i].uses;
      OrderedAt(ss, at + j);
    }
  }

  lemma {:induction false} SuffixIsWellFormed(ss: seq<Shape>, at: nat)
    requires Ordered(ss) && at < |ss|
    ensures CallsWellFormed(ss[at..])
  {
    var rest := ss[at..];
    forall i | 0 <= i < |rest| && rest[i].uses != []
      ensures rest[i].assistant && rest[i].answers == [] && "" !in rest[i].uses
    {
      var s := ss[at + i];
      assert rest[i] == s && s.uses == ss[at + i].uses && s.answers == ss[at + i].answers;
    }
  }

  lemma {:induction false} SuffixShapes(ss: seq<Shape>, at: nat)
    requires Ordered(ss) && at < |ss| && ss[at].answers == []
    ensures Ordered(ss[at..])
  {
    SuffixAnswersInOrder(ss, at);
    SuffixIsWellFormed(ss, at);
    assert Open(ss[at..]) == Open(ss);
  }

  lemma {:induction false} ShapesOfSuffix(ms: seq<Message>, at: nat)
    requires at <= |ms|
    ensures Shapes(ms[at..]) == Shapes(ms)[at..]
  {
  }

  lemma {:induction false} SuffixIsOrdered(ms: seq<Message>, at: nat)
    requires Ordered(Shapes(ms)) && at < |ms| && ResIds(ms[at]) == []
    ensures Ordered(Shapes(ms[at..]))
  {
    ShapesOfSuffix(ms, at);
    SuffixShapes(Shapes(ms), at);
  }

  lemma {:induction false} NoteAlone(role: Role, text: string)
    ensures Ordered(Shapes([Note(role, text)]))
  {
    NoteIsPlain(role, text);
    OrderedPlain([], ShapeOf(Note(role, text)));
    assert Shapes([Note(role, text)]) == [] + [ShapeOf(Note(role, text))];
  }

  lemma {:induction false} TurnMessagesAreOrdered(ms: seq<Message>, at: nat, text: string)
    requires Ordered(Shapes(ms)) && (at < |ms| ==> ResIds(ms[at]) == [])
    ensures Ordered(Shapes(TurnMessages(ms, at, text)))
  {
    NoteAlone(User, text);
    var start := LastStart(ms, Strip(text), |ms|);
    if at < |ms| {
      SuffixIsOrdered(ms, at);
    } else if start.Some? {
      SuffixIsOrdered(ms, start.value);
    }
  }

  lemma {:induction false} OrderedConcat(a: seq<Shape>, b: seq<Shape>)
    requires Ordered(a) && Ordered(b)
    ensures Ordered(a + b)
  {
    var all := a + b;
    forall i | 0 <= i < |all|
      ensures all[i].answers == if i == 0 then [] else all[i - 1].uses
      ensures all[i].uses != [] ==> all[i].assistant && all[i].answers == [] && "" !in all[i].uses
    {
      if i < |a| {
        OrderedAt(a, i);
        var uses, answers := a[i].uses, a[i].answers;
      } else {
        OrderedAt(b, i - |a|);
        var uses, answers := b[i - |a|].uses, b[i - |a|].answers;
      }
    }
  }

  lemma {:induction false} NoteJoins(ms: seq<Message>, role: Role, text: string)
    requires Ordered(Shapes(ms))
    ensures Ordered(Shapes(ms + [Note(role, text)]))
  {
    ShapesWithNote(ms, role, text);
    OrderedPlain(Shapes(ms), Shape(role.Assistant?, [], []));
  }

  lemma {:induction false} AnchoredStart(t: Turn)
    requires Anchored(t) && Paired(t) && Ordered(Shapes(t.chat.stored.history))
    ensures t.chat.userIndex < |t.chat.messages| ==> ResIds(t.chat.messages[t.chat.userIndex]) == []
  {
    var ms, at := t.chat.messages, t.chat.userIndex;
    if at < |ms| {
      OrderedAt(Shapes(ms), at);
      if at > 0 {
        assert Shapes(ms[..at])[at - 1] == Shapes(ms)[at - 1];
        assert Open(Shapes(t.chat.stored.history)) == [];
      }
    }
  }

  lemma {:induction false} OrderedAfter(a: seq<Message>, b: seq<Message>)
    requires Ordered(Shapes(a)) && Ordered(Shapes(b))
    ensures Ordered(Shapes(a + b))
  {
    OrderedConcat(Shapes(a), Shapes(b));
    assert Shapes(a + b) == Shapes(a) + Shapes(b);
  }

  lemma {:induction false} MinimalIsOrdered(hasTurn: bool, text: string, closing: string)
    ensures Ordered(Shapes(Minimal(hasTurn, text, closing)))
  {
    NoteAlone(User, text);
    NoteAlone(Assistant, closing);
    OrderedAfter([Note(User, text)], [Note(Assistant, closing)]);
    assert [] + [Note(Assistant, closing)] == [Note(Assistant, closing)];
  }

  lemma {:induction false} StoppedIsOrdered(ms: seq<Message>, at: nat, text: string, closing: string)
    requires Ordered(Shapes(ms)) && (at < |ms| ==> ResIds(ms[at]) == [])
    ensures Ordered(Shapes(StoppedTranscript(ms, at, text, closing)))
  {
    TurnMessagesAreOrdered(ms, at, text);
    CompleteShapes(TurnMessages(ms, at, text));
    NoteJoins(Complete(TurnMessages(ms, at, text)), Assistant, Marker(closing));
  }

  /** However a turn ends, what it hands on is paired. */
  lemma {:induction false} HandedOnIsPaired(t: Turn, text: string, closing: string)
    requires Anchored(t) && Paired(t) && Ordered(Shapes(t.chat.stored.history))
    ensures Ordered(Shapes(HandedOn(t, text, closing)))
  {
    var stored := t.chat.stored;
    match t.control.status
    case Stopped =>
      AnchoredStart(t);
      StoppedIsOrdered(t.chat.messages, t.chat.userIndex, text, closing);
      OrderedAfter(stored.history, StoppedTranscript(t.chat.messages, t.chat.userIndex, text, closing));
    case Overflowed =>
      MinimalIsOrdered(stored.hasTurn, text, closing);
      OrderedAfter(stored.history, Minimal(stored.hasTurn, text, closing));
    case Errored =>
      MinimalIsOrdered(stored.hasTurn, text, closing);
      OrderedAfter(stored.history, Minimal(stored.hasTurn, text, closing));
    case _ =>
  }

  // ---- Silent results ---------------------------------------------------------------

  lemma {:induction false} SilentConcat(a: seq<Message>, b: seq<Message>)
    requires AllSilent()(a) && AllSilent()(b)
    ensures AllSilent()(a + b)
  {
  }

  lemma {:induction false} SilentPart(ms: seq<Message>, part: seq<Message>)
    requires AllSilent()(ms) && forall m | m in part :: m in ms
    ensures AllSilent()(part)
  {
  }

  lemma {:induction false} NoteIsSilent(role: Role, text: string)
    ensures AllSilent()([Note(role, text)])
  {
    NoteIsPlain(role, text);
    assert ShapeOf(Note(role, text)).answers == ResIds(Note(role, text));
  }

  lemma {:induction false} TurnMessagesAreSilent(ms: seq<Message>, at: nat, text: string)
    requires AllSilent()(ms)
    ensures AllSilent()(TurnMessages(ms, at, text))
  {
    NoteIsSilent(User, text);
    var start := LastStart(ms, Strip(text), |ms|);
    if at < |ms| {
      SilentPart(ms, ms[at..]);
    } else if start.Some? {
      SilentPart(ms, ms[start.value..]);
    }
  }

  lemma {:induction false} StoppedIsSilent(ms: seq<Message>, at: nat, text: string, closing: string)
    requires Ordered(Shapes(ms)) && (at < |ms| ==> ResIds(ms[at]) == []) && AllSilent()(ms)
    ensures AllSilent()(StoppedTranscript(ms, at, text, closing))
  {
    var turn := TurnMessages(ms, at, text);
    TurnMessagesAreOrdered(ms, at, text);
    TurnMessagesAreSilent(ms, at, text);
    CompleteShapes(turn);
    SilentPart(turn, Complete(turn));
    NoteIsSilent(Assistant, Marker(closing));
    SilentConcat(Complete(turn), [Note(Assistant, Marker(closing))]);
  }

  lemma {:induction false} MinimalIsSilent(hasTurn: bool, text: string, closing: string)
    ensures AllSilent()(Minimal(hasTurn, text, closing))
  {
    NoteIsSilent(User, text);
    NoteIsSilent(Assistant, closing);
    SilentConcat([Note(User, text)], [Note(Assistant, closing)]);
    SilentConcat([], [Note(Assistant, closing)]);
  }

  /** Results that carried no text carry none in what is handed on. */
  lemma {:induction false} HandedOnIsSilent(t: Turn, text: string, closing: string)
    requires Anchored(t) && Paired(t) && Ordered(Shapes(t.chat.stored.history))
    requires AllSilent()(t.chat.messages) && AllSilent()(t.chat.stored.history)
    ensures AllSilent()(HandedOn(t, text, closing))
  {
    var stored := t.chat.stored;
    match t.control.status
    case Stopped =>
      AnchoredStart(t);
      StoppedIsSilent(t.chat.messages, t.chat.userIndex, text, closing);
      SilentConcat(stored.history, StoppedTranscript(t.chat.messages, t.chat.userIndex, text, closing));
    case Overflowed =>
      MinimalIsSilent(stored.hasTurn, text, closing);
      SilentConcat(stored.history, Minimal(stored.hasTurn, text, closing));
    case Errored =>
      MinimalIsSilent(stored.hasTurn, text, closing);
      SilentConcat(stored.history, Minimal(stored.hasTurn, text, closing));
    case _ =>
  }

  // ---- Ids --------------------------------------------------------------------------

  /** The turn is stopped with messages of its own, or what is read as its messages has no
      calls. */
  predicate RepeatsNoRound(t: Turn, text: string) {
    t.chat.userIndex < |t.chat.messages| || NoCalls(TurnMessages(t.chat.messages, t.chat.userIndex, text))
  }

  predicate NoCalls(ms: seq<Message>) {
    forall m | m in ms :: UseIds(m) == []
  }

  lemma {:induction false} DistinctJoin(a: seq<Shape>, b: seq<Shape>)
    requires IdsDistinct(a) && IdsDistinct(b)
    requires forall s, r, x | s in a && r in b && x in s.uses :: x !in r.uses
    ensures IdsDistinct(a + b)
  {
  }

  lemma {:induction false} DistinctPart(a: seq<Shape>, b: seq<Shape>, keep: set<nat>)
    requires IdsDistinct(a + b)
    ensures IdsDistinct(a + Select(b, keep, |b|))
  {
    var all := a + b;
    assert forall i | 0 <= i < |a| :: all[i] == a[i];
    assert forall k | 0 <= k < |b| :: all[|a| + k] == b[k];
    SelectedDistinct(b, keep, |b|);
    SelectedMembers(b, keep, |b|);
    forall s, r, x | s in a && r in Select(b, keep, |b|) && x in s.uses
      ensures x !in r.uses
    {
      var i :| 0 <= i < |a| && a[i] == s;
      var k: nat :| k < |b| && b[k] == r;
      assert all[i] == s && all[|a| + k] == r;
    }
    DistinctJoin(a, Select(b, keep, |b|));
  }

  lemma {:induction false} PlainJoinsDistinct(ss: seq<Shape>, rest: seq<Shape>)
    requires IdsDistinct(ss) && forall s | s in rest :: s.uses == []
    ensures IdsDistinct(ss + rest)
  {
  }

  lemma {:induction false} NotesAddNoCalls(ss: seq<Shape>, ms: seq<Message>)
    requires IdsDistinct(ss) && NoCalls(ms)
    ensures IdsDistinct(ss + Shapes(ms))
  {
    forall s | s in Shapes(ms)
      ensures s.uses == []
    {
      var i :| 0 <= i < |ms| && Shapes(ms)[i] == s;
      assert ms[i] in ms;
    }
    PlainJoinsDistinct(ss, Shapes(ms));
  }

  lemma {:induction false} MinimalHasNoCalls(hasTurn: bool, text: string, closing: string)
    ensures NoCalls(Minimal(hasTurn, text, closing))
  {
    NoteIsPlain(User, text);
    NoteIsPlain(Assistant, closing);
    assert ShapeOf(Note(User, text)).uses == UseIds(Note(User, text));
    assert ShapeOf(Note(Assistant, closing)).uses == UseIds(Note(Assistant, closing));
  }

  /** Marking what is complete adds no call. */
  lemma {:induction false} MarkedShapes(ms: seq<Message>, text: string)
    ensures Shapes(Marked(ms, text)) == Shapes(ms) || Shapes(Marked(ms, text)) == Shapes(ms) + [Shape(true, [], [])]
  {
    ShapesWithNote(ms, Assistant, text);
  }

  lemma {:induction false} OneMorePlain(ss: seq<Shape>, s: Shape)
    requires s.uses == []
    ensures IdsDistinct(ss + [s]) <==> IdsDistinct(ss)
  {
    if IdsDistinct(ss + [s]) {
      forall i, j, x | 0 <= i < j < |ss| && x in ss[i].uses
        ensures x !in ss[j].uses
      {
        assert (ss + [s])[i] == ss[i] && (ss + [s])[j] == ss[j];
      }
    }
  }

  lemma {:induction false} MarkingKeepsDistinct(ss: seq<Shape>, ms: seq<Message>, text: string)
    ensures IdsDistinct(ss + Shapes(Marked(ms, text))) <==> IdsDistinct(ss + Shapes(ms))
  {
    MarkedShapes(ms, text);
    OneMorePlain(ss + Shapes(ms), Shape(true, [], []));
    assert ss + (Shapes(ms) + [Shape(true, [], [])]) == ss + Shapes(ms) + [Shape(true, [], [])];
  }

  lemma {:induction false} ShapesJoin(a: seq<Message>, b: seq<Message>)
    ensures Shapes(a + b) == Shapes(a) + Shapes(b)
  {
  }

  /** What is kept of the turn's own messages repeats no id of what was stored before. */
  lemma {:induction false} OwnMessagesAreDistinct(before: seq<Message>, turn: seq<Message>)
    requires Ordered(Shapes(turn)) && IdsDistinct(Shapes(before + turn))
    ensures IdsDistinct(Shapes(before) + Shapes(Complete(turn)))
  {
    CompleteShapes(turn);
    ShapesJoin(before, turn);
    DistinctPart(Shapes(before), Shapes(turn), Filled(turn));
  }

  lemma {:induction false} NoCallsComplete(ms: seq<Message>)
    requires Ordered(Shapes(ms))
    ensures NoCalls(Complete(ms)) <==> NoCalls(ms)
  {
    CompleteShapes(ms);
    CompleteIsPicked(ms);
    PickMembers(ms, Filled(ms), 0, |ms|);
    forall m | m in ms && UseIds(m) != []
      ensures m in Complete(ms)
    {
      var i :| 0 <= i < |ms| && ms[i] == m;
      ToolsFill(ms, i);
    }
  }

  /** With no message of its own the turn's messages are looked for in what is stored already. */
  lemma {:induction false} FoundCallsAreStored(ms: seq<Message>, text: string, m: Message)
    requires m in TurnMessages(ms, |ms|, text) && UseIds(m) != []
    ensures exists i :: 0 <= i < |ms| && Shapes(ms)[i].uses == UseIds(m)
  {
    NoteIsPlain(User, text);
    assert ShapeOf(Note(User, text)).uses == UseIds(Note(User, text));
    assert m in ms;
    var i :| 0 <= i < |ms| && ms[i] == m;
    assert Shapes(ms)[i] == ShapeOf(m);
  }

  lemma {:induction false} FoundIdsAreDistinctIff(ms: seq<Message>, text: string)
    requires Sound(Shapes(ms))
    ensures IdsDistinct(Shapes(ms) + Shapes(Complete(TurnMessages(ms, |ms|, text))))
        <==> NoCalls(TurnMessages(ms, |ms|, text))
  {
    var turn := TurnMessages(ms, |ms|, text);
    TurnMessagesAreOrdered(ms, |ms|, text);
    NoCallsComplete(turn);
    if NoCalls(turn) {
      NotesAddNoCalls(Shapes(ms), Complete(turn));
    } else {
      var m :| m in Complete(turn) && UseIds(m) != [];
      CompleteShapes(turn);
      FoundCallsAreStored(ms, text, m);
      RepeatedCallBreaks(Shapes(ms), Complete(turn), m);
    }
  }

  lemma {:induction false} RepeatedCallBreaks(a: seq<Shape>, ms: seq<Message>, m: Message)
    requires m in ms && UseIds(m) != [] && exists i :: 0 <= i < |a| && a[i].uses == UseIds(m)
    ensures !IdsDistinct(a + Shapes(ms))
  {
    var i :| 0 <= i < |a| && a[i].uses == UseIds(m);
    var j :| 0 <= j < |ms| && ms[j] == m;
    var all := a + Shapes(ms);
    assert all[i] == a[i] && all[|a| + j] == ShapeOf(m) && UseIds(m)[0] in all[i].uses;
  }

  lemma {:induction false} OwnPartIsDistinct(ms: seq<Message>, at: nat)
    requires Sound(Shapes(ms)) && at < |ms| && ResIds(ms[at]) == []
    ensures IdsDistinct(Shapes(ms[..at]) + Shapes(Complete(ms[at..])))
  {
    SuffixIsOrdered(ms, at);
    assert ms == ms[..at] + ms[at..];
    OwnMessagesAreDistinct(ms[..at], ms[at..]);
  }

  lemma {:induction false} StoppedIdsIff(ss: seq<Shape>, ms: seq<Message>, at: nat, text: string, closing: string)
    requires Sound(Shapes(ms)) && at <= |ms| && ss == Shapes(ms[..at]) && (at < |ms| ==> ResIds(ms[at]) == [])
    ensures IdsDistinct(ss + Shapes(StoppedTranscript(ms, at, text, closing)))
       <==> at < |ms| || NoCalls(TurnMessages(ms, at, text))
  {
    MarkingKeepsDistinct(ss, Complete(TurnMessages(ms, at, text)), Marker(closing));
    if at < |ms| {
      OwnPartIsDistinct(ms, at);
    } else {
      assert ms[..at] == ms;
      FoundIdsAreDistinctIff(ms, text);
    }
  }

  lemma {:induction false} SoundIff(ss: seq<Shape>)
    requires Ordered(ss)
    ensures Sound(ss) <==> IdsDistinct(ss)
  {
  }

  /** A stopped turn of distinct ids hands on distinct ids exactly when it repeats no round: when
      it is stopped right after a checkpoint, messages the checkpoint holds are stored again. */
  lemma {:induction false} StoppedIdsAreDistinctIff(t: Turn, text: string, closing: string)
    requires Anchored(t) && Sound(Shapes(t.chat.messages)) && Sound(Shapes(t.chat.stored.history))
    requires t.control.status.Stopped?
    ensures Sound(Shapes(HandedOn(t, text, closing))) <==> RepeatsNoRound(t, text)
  {
    var a, ms, at := t.chat.stored.history, t.chat.messages, t.chat.userIndex;
    AnchoredStart(t);
    HandedOnIsPaired(t, text, closing);
    SoundIff(Shapes(HandedOn(t, text, closing)));
    ShapesJoin(a, StoppedTranscript(ms, at, text, closing));
    StoppedIdsIff(Shapes(a), ms, at, text, closing);
  }

  lemma {:induction false} MinimalKeepsSound(a: seq<Message>, hasTurn: bool, text: string, closing: string)
    requires Sound(Shapes(a))
    ensures Sound(Shapes(a + Minimal(hasTurn, text, closing)))
  {
    MinimalHasNoCalls(hasTurn, text, closing);
    NotesAddNoCalls(Shapes(a), Minimal(hasTurn, text, closing));
    ShapesJoin(a, Minimal(hasTurn, text, closing));
    MinimalIsOrdered(hasTurn, text, closing);
    OrderedAfter(a, Minimal(hasTurn, text, closing));
  }

  /** Any other end hands on distinct ids. */
  lemma {:induction false} OtherEndsAreDistinct(t: Turn, text: string, closing: string)
    requires Anchored(t) && Sound(Shapes(t.chat.messages)) && Sound(Shapes(t.chat.stored.history))
    requires !t.control.status.Stopped?
    ensures Sound(Shapes(HandedOn(t, text, closing)))
  {
    var a := t.chat.stored.history;
    match t.control.status
    case Overflowed => MinimalKeepsSound(a, t.chat.stored.hasTurn, text, closing);
    case Errored => MinimalKeepsSound(a, t.chat.stored.hasTurn, text, closing);
    case _ =>
  }
}
