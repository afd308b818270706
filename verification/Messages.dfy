/** Chat messages as the agent loop and the context compressor see them: a role and
    either a plain string or a list of content blocks. */
module Messages {

  datatype Block =
    | Text(text: string)
    | ToolUse(id: string, name: string, input: string)
    | ToolResult(toolUseId: string, content: string)
    | Image
    | Other(rendered: string)

  /** `Foreign` stands for content that is neither a string nor a list; `rendered` is its
      string form, empty when the value is falsy. */
  datatype Content = Plain(text: string) | Blocks(blocks: seq<Block>) | Foreign(rendered: string)

  datatype Role = User | Assistant | OtherRole(name: string)

  datatype Message = Message(role: Role, content: Content)

  const SUMMARY_MARK := "[Context checkpoint summary]"
  const LEGACY_SUMMARY_MARK := "[系统生成的对话历史摘要]"

  // ---- Text -------------------------------------------------------------------------

  /** The characters Python's str.strip() removes. */
  predicate IsSpace(c: char) {
    || '\t' <= c <= '\r'
    || '\U{1c}' <= c <= ' '
    || c == '\U{85}' || c == '\U{a0}' || c == '\U{1680}'
    || '\U{2000}' <= c <= '\U{200a}'
    || c == '\U{2028}' || c == '\U{2029}' || c == '\U{202f}' || c == '\U{205f}' || c == '\U{3000}'
  }

  function LStrip(s: string): string {
    if s != "" && IsSpace(s[0]) then LStrip(s[1..]) else s
  }

  function RStrip(s: string): string {
    if s != "" && IsSpace(s[|s| - 1]) then RStrip(s[..|s| - 1]) else s
  }

  function Strip(s: string): string {
    RStrip(LStrip(s))
  }

  predicate AllSpace(s: string) {
    forall c | c in s :: IsSpace(c)
  }

  lemma {:induction false} LStripIsExact(s: string) returns (lead: string)
    ensures s == lead + LStrip(s) && AllSpace(lead)
    ensures LStrip(s) != "" ==> !IsSpace(LStrip(s)[0])
  {
    lead := "";
    if s != "" && IsSpace(s[0]) {
      var more := LStripIsExact(s[1..]);
      lead := [s[0]] + more;
    }
  }

  lemma {:induction false} RStripIsExact(s: string) returns (trail: string)
    ensures s == RStrip(s) + trail && AllSpace(trail)
    ensures RStrip(s) != "" ==> !IsSpace(RStrip(s)[|RStrip(s)| - 1])
  {
    trail := "";
    if s != "" && IsSpace(s[|s| - 1]) {
      var more := RStripIsExact(s[..|s| - 1]);
      trail := more + [s[|s| - 1]];
    }
  }

  /** Stripping takes spaces from both ends, as many as there are, and nothing else. */
  lemma {:induction false} StripIsExact(s: string) returns (lead: string, trail: string)
    ensures s == lead + Strip(s) + trail && AllSpace(lead) && AllSpace(trail)
    ensures Strip(s) != "" ==> !IsSpace(Strip(s)[0]) && !IsSpace(Strip(s)[|Strip(s)| - 1])
  {
    lead := LStripIsExact(s);
    trail := RStripIsExact(LStrip(s));
  }

  lemma {:induction false} StripIsIdempotent(s: string)
    ensures Strip(Strip(s)) == Strip(s)
  {
    var lead, trail := StripIsExact(s);
  }

  function TextOf(blocks: seq<Block>): string {
    if blocks == [] then ""
    else (if blocks[0].Text? then blocks[0].text else "") + TextOf(blocks[1..])
  }

  function MessageText(m: Message): string {
    match m.content
    case Plain(t) => t
    case Blocks(bs) => TextOf(bs)
    case Foreign(_) => ""
  }

  function BlocksOf(m: Message): seq<Block> {
    if m.content.Blocks? then m.content.blocks else []
  }

  // ---- Summaries and user turns -----------------------------------------------------

  predicate IsSummary(m: Message) {
    var text := LStrip(MessageText(m));
    SUMMARY_MARK <= text || LEGACY_SUMMARY_MARK <= text
  }

  function SummaryMessage(summary: string): Message {
    Message(User, Blocks([Text(SUMMARY_MARK + "\n" + Strip(summary))]))
  }

  lemma {:induction false} SummaryIsRecognised(summary: string)
    ensures IsSummary(SummaryMessage(summary))
  {
    var t := SUMMARY_MARK + "\n" + Strip(summary);
    assert TextOf([Text(t)]) == t + TextOf([]);
    assert t[0] == '[';
    assert SUMMARY_MARK <= t;
  }

  lemma {:induction false} OneText(text: string)
    ensures TextOf([Text(text)]) == text
  {
    assert [Text(text)][1..] == [] && text + "" == text;
  }

  /** A summary message is the user's, and says the mark and then the summary, stripped. */
  lemma {:induction false} SummarySays(summary: string)
    ensures SummaryMessage(summary).role == User
    ensures MessageText(SummaryMessage(summary)) == "[Context checkpoint summary]\n" + Strip(summary)
  {
    OneText(SUMMARY_MARK + "\n" + Strip(summary));
  }

  /** A message typed by the user: it carries text and no tool result. */
  predicate IsRealUser(m: Message) {
    && m.role.User?
    && !IsSummary(m)
    && match m.content
       case Plain(t) => Strip(t) != ""
       case Foreign(r) => Strip(r) != ""
       case Blocks(bs) => (forall b | b in bs :: !b.ToolResult?) && exists b | b in bs :: b.Text? && Strip(b.text) != ""
  }

  lemma {:induction false} LeadingSpacesGo(lead: string, rest: string)
    requires AllSpace(lead) && rest != "" && !IsSpace(rest[0])
    ensures LStrip(lead + rest) == rest
  {
    if lead == "" {
      assert lead + rest == rest;
    } else {
      assert (lead + rest)[0] == lead[0] && lead[0] in lead && (lead + rest)[1..] == lead[1..] + rest;
      LeadingSpacesGo(lead[1..], rest);
    }
  }

  /** The mark stands at the beginning of the text, after any spaces. */
  ghost predicate Begins(text: string, mark: string) {
    exists lead: string, rest: string :: AllSpace(lead) && text == lead + (mark + rest)
  }

  lemma {:induction false} BeginsIff(text: string, mark: string)
    requires mark != "" && !IsSpace(mark[0])
    ensures mark <= LStrip(text) <==> Begins(text, mark)
  {
    var before := LStripIsExact(text);
    var after := LStrip(text);
    if mark <= after {
      assert after == mark + after[|mark|..];
    }
    if Begins(text, mark) {
      var lead: string, rest: string :| AllSpace(lead) && text == lead + (mark + rest);
      LeadingSpacesGo(lead, mark + rest);
    }
  }

  /** A text is taken for a summary exactly when it begins with one of the two marks. */
  lemma {:induction false} SummaryIff(role: Role, text: string)
    ensures IsSummary(Message(role, Blocks([Text(text)]))) <==>
      Begins(text, "[Context checkpoint summary]") || Begins(text, "[系统生成的对话历史摘要]")
  {
    OneText(text);
    BeginsIff(text, SUMMARY_MARK);
    BeginsIff(text, LEGACY_SUMMARY_MARK);
  }

  /** Text the user types counts as typed exactly when it is not blank and not a summary. */
  lemma {:induction false} TypedIff(role: Role, text: string)
    ensures var m := Message(role, Blocks([Text(text)]));
      IsRealUser(m) <==> role == User && !IsSummary(m) && Strip(text) != ""
    ensures var m := Message(role, Plain(text));
      IsRealUser(m) <==> role == User && !IsSummary(m) && Strip(text) != ""
  {
    var m := Message(role, Blocks([Text(text)]));
    assert m.content.blocks[0] in m.content.blocks;
  }

  // ---- Tool calls and results -------------------------------------------------------

  function UsesOf(blocks: seq<Block>): seq<string> {
    if blocks == [] then []
    else (if blocks[0].ToolUse? then [blocks[0].id] else []) + UsesOf(blocks[1..])
  }

  function ResultsOf(blocks: seq<Block>): seq<string> {
    if blocks == [] then []
    else (if blocks[0].ToolResult? then [blocks[0].toolUseId] else []) + ResultsOf(blocks[1..])
  }

  /** The ids of the tool calls in a message, in order. */
  function UseIds(m: Message): seq<string> {
    UsesOf(BlocksOf(m))
  }

  /** The ids answered by the tool results in a message, in order. */
  function ResIds(m: Message): seq<string> {
    ResultsOf(BlocksOf(m))
  }

  lemma {:induction false} NoResultBlocks(blocks: seq<Block>)
    requires forall b | b in blocks :: !b.ToolResult?
    ensures ResultsOf(blocks) == []
  {
    if blocks != [] {
      NoResultBlocks(blocks[1..]);
    }
  }

  /** What the user typed never answers a tool call. */
  lemma {:induction false} RealUserHasNoResults(m: Message)
    requires IsRealUser(m)
    ensures ResIds(m) == []
  {
    NoResultBlocks(BlocksOf(m));
  }

  lemma {:induction false} UsesConcat(a: seq<Block>, b: seq<Block>)
    ensures UsesOf(a + b) == UsesOf(a) + UsesOf(b)
  {
    if a == [] {
      assert a + b == b;
    } else {
      UsesConcat(a[1..], b);
      assert (a + b)[0] == a[0] && (a + b)[1..] == a[1..] + b;
      var head := if a[0].ToolUse? then [a[0].id] else [];
      assert head + (UsesOf(a[1..]) + UsesOf(b)) == (head + UsesOf(a[1..])) + UsesOf(b);
    }
  }

  lemma {:induction false} ResultsConcat(a: seq<Block>, b: seq<Block>)
    ensures ResultsOf(a + b) == ResultsOf(a) + ResultsOf(b)
  {
    if a == [] {
      assert a + b == b;
    } else {
      ResultsConcat(a[1..], b);
      assert (a + b)[0] == a[0] && (a + b)[1..] == a[1..] + b;
      var head := if a[0].ToolResult? then [a[0].toolUseId] else [];
      assert head + (ResultsOf(a[1..]) + ResultsOf(b)) == (head + ResultsOf(a[1..])) + ResultsOf(b);
    }
  }
}
