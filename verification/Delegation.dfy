/** Tools of a delegated agent: which ones it is given, which of its calls reach the executor,
    and how the calls it asked for are accounted for. */
module Delegation {
  import opened Messages
  import opened ToolCalls

  /** How a call fares. `Failed` carries the executor's error text. */
  datatype Verdict = Allowed | Recursive | Destructive | NotGranted | OverQuota | Nameless | Failed(result: string)

  /** The runtime around one delegation: the fixed tool classes, the registry's destructive
      flag, the call quota, whether destructive tools are authorized, and the refusal text. */
  datatype Host = Host(never: set<string>, destructive: set<string>, readonly: set<string>,
                       registered: string -> bool, limit: nat, authorized: bool,
                       refusal: (string, Verdict) -> string)

  const READONLY_TOOLS: set<string> := {
    "read", "list_directory", "file_info", "grep", "glob", "web_search", "calculator",
    "datetime", "weather", "random", "json", "todo", "task", "process_list" }
  const DESTRUCTIVE_TOOLS: set<string> := {
    "write", "edit", "bash", "execute_code", "process_kill", "memory", "memory_buffer" }
  const NEVER_DELEGATE: set<string> := {
    "sub_agent", "sub_parallel", "sub_pipeline", "delegate_task", "run_review", "run_research",
    "run_workflow", "workflow_run", "clarify", "confirm" }

  function Runtime(registered: string -> bool, limit: nat, authorized: bool,
        refusal: (string, Verdict) -> string): Host {
    Host(NEVER_DELEGATE, DESTRUCTIVE_TOOLS, READONLY_TOOLS, registered, limit, authorized, refusal)
  }

  datatype Policy = Nothing | Everything | ReadOnly | Allowlist(names: set<string>)

  function AllowedNames(h: Host, tools: seq<string>, p: Policy): set<string> {
    match p
    case Nothing => {}
    case Everything => set i | 0 <= i < |tools| && tools[i] != "" :: tools[i]
    case ReadOnly => h.readonly
    case Allowlist(names) => names
  }

  /** What each policy names. */
  lemma {:induction false} PolicyNames(h: Host, tools: seq<string>, p: Policy, name: string)
    ensures name in AllowedNames(h, tools, p) <==>
      || (p.Everything? && name in tools && name != "")
      || (p.ReadOnly? && name in h.readonly)
      || (p.Allowlist? && name in p.names)
  {
  }

  predicate IsDestructive(h: Host, name: string) {
    name in h.destructive || h.registered(name)
  }

  // ---- First gate: the tools handed to the model ------------------------------------

  function ToolDenial(h: Host, allowed: set<string>, name: string): Verdict {
    if name in h.never then Recursive
    else if IsDestructive(h, name) && !h.authorized then Destructive
    else if name !in allowed then NotGranted
    else Allowed
  }

  function Granted(h: Host, allowed: set<string>, tools: seq<string>, n: nat): seq<string>
    requires n <= |tools|
  {
    if n == 0 then []
    else
      var name := tools[n - 1];
      Granted(h, allowed, tools, n - 1) + if name != "" && ToolDenial(h, allowed, name).Allowed? then [name] else []
  }

  method SelectTools(h: Host, tools: seq<string>, policy: Policy)
      returns (selected: seq<string>, denied: map<string, Verdict>)
    ensures selected == Granted(h, AllowedNames(h, tools, policy), tools, |tools|)
    ensures forall name | name in denied ::
        name in tools && name !in selected && denied[name] == ToolDenial(h, AllowedNames(h, tools, policy), name)
    ensures forall name | name in tools && name != "" :: name in selected || name in denied
  {
    selected, denied := [], map[];
    var allowed := AllowedNames(h, tools, policy);
    for i := 0 to |tools|
      invariant selected == Granted(h, allowed, tools, i)
      invariant forall name | name in selected :: ToolDenial(h, allowed, name).Allowed?
      invariant forall name | name in denied ::
          name in tools && denied[name] == ToolDenial(h, allowed, name) && !denied[name].Allowed?
      invariant forall k | 0 <= k < i && tools[k] != "" :: tools[k] in selected || tools[k] in denied
    {
      var name := tools[i];
      if name != "" {
        var reason := ToolDenial(h, allowed, name);
        if reason.Allowed? {
          selected := selected + [name];
        } else {
          denied := denied[name := reason];
        }
      }
    }
  }

  /** A tool is granted exactly when it is offered, the policy names it, it is never a
      delegation tool, and it is destructive only when that is authorized. */
  lemma {:induction false} GrantedIff(h: Host, allowed: set<string>, tools: seq<string>, n: nat, name: string)
    requires n <= |tools|
    ensures name in Granted(h, allowed, tools, n)
       <==>
         && name in tools[..n] && name != "" && name in allowed
         && name !in h.never && (IsDestructive(h, name) ==> h.authorized)
  {
    if n > 0 {
      GrantedIff(h, allowed, tools, n - 1, name);
      assert tools[..n] == tools[..n - 1] + [tools[n - 1]];
    }
  }

  /** Why a tool is not granted: first that it delegates, then that it is destructive, and only then
      that the policy does not name it. */
  lemma {:induction false} DenialReason(h: Host, allowed: set<string>, name: string)
    ensures var reason := ToolDenial(h, allowed, name);
      && (reason == Recursive <==> name in h.never)
      && (reason == Destructive <==> name !in h.never && IsDestructive(h, name) && !h.authorized)
      && (reason == NotGranted <==>
           name !in allowed && name !in h.never && (IsDestructive(h, name) ==> h.authorized))
      && (reason.Allowed? || reason.Recursive? || reason.Destructive? || reason.NotGranted?)
  {
  }

  // ---- Second gate: the calls the model makes ---------------------------------------

  function CallVerdict(h: Host, granted: seq<string>, call: Call, index: nat): Verdict {
    if index >= h.limit then OverQuota
    else if call.name == "" then Nameless
    else if call.name in h.never then Recursive
    else if IsDestructive(h, call.name) && !h.authorized then Destructive
    else if call.name !in granted then NotGranted
    else Allowed
  }

  /** The decisions taken before anything runs, by call id. */
  ghost predicate Decided(h: Host, granted: seq<string>, calls: seq<Call>, decisions: map<string, Verdict>) {
    && (forall i :: 0 <= i < |calls| ==>
        calls[i].id in decisions && decisions[calls[i].id] == CallVerdict(h, granted, calls[i], i))
    && (forall id | id in decisions :: id in CallIds(calls))
  }

  method AuthorizeToolCalls(h: Host, granted: seq<string>, calls: seq<Call>) returns (decisions: map<string, Verdict>)
    requires DistinctIds(calls)
    ensures Decided(h, granted, calls, decisions)
  {
    decisions := map[];
    for index := 0 to |calls|
      invariant forall i :: 0 <= i < index ==>
          calls[i].id in decisions && decisions[calls[i].id] == CallVerdict(h, granted, calls[i], i)
      invariant forall id | id in decisions :: id in CallIds(calls)
    {
      decisions := decisions[calls[index].id := CallVerdict(h, granted, calls[index], index)];
      assert CallIds(calls)[index] == calls[index].id;
    }
  }

  /** On granted tools the second gate refuses only what exceeds the quota; whatever it lets
      through was granted. */
  lemma {:induction false} GatesAgree(h: Host, allowed: set<string>, tools: seq<string>, call: Call, index: nat)
    ensures var granted := Granted(h, allowed, tools, |tools|);
      && (CallVerdict(h, granted, call, index).Allowed? <==> index < h.limit && call.name in granted)
      && (call.name in granted ==>
          CallVerdict(h, granted, call, index) == if index < h.limit then Allowed else OverQuota)
  {
    GrantedIff(h, allowed, tools, |tools|, call.name);
  }

  // ---- Execution --------------------------------------------------------------------

  const SKIPPED := "Error: tool execution skipped"

  predicate LetterIs(c: char, lower: char, upper: char) {
    c == lower || c == upper
  }

  predicate LooksLikeError(text: string) {
    var t := LStrip(text);
    && |t| >= 6
    && LetterIs(t[0], 'e', 'E') && LetterIs(t[1], 'r', 'R') && LetterIs(t[2], 'r', 'R')
    && LetterIs(t[3], 'o', 'O') && LetterIs(t[4], 'r', 'R') && t[5] == ':'
  }

  lemma {:induction false} SkippedLooksLikeError()
    ensures LooksLikeError(SKIPPED)
  {
    assert SKIPPED[..6] == ['E', 'r', 'r', 'o', 'r', ':'];
    assert SKIPPED[0] == SKIPPED[..6][0] == 'E' && !IsSpace('E');
    assert forall i :: 0 <= i < 6 ==> SKIPPED[i] == SKIPPED[..6][i];
  }

  /** The calls among the first n that pass a test. */
  function Passing(calls: seq<Call>, test: Call -> bool, n: nat): seq<Call>
    requires n <= |calls|
  {
    if n == 0 then []
    else Passing(calls, test, n - 1) + if test(calls[n - 1]) then [calls[n - 1]] else []
  }

  /** What the executor reported, by call id. Nothing is assumed about it: ids may be missing
      or unknown. */
  type Report = map<string, string>

  function ResultOf(h: Host, before: Verdict, call: Call, report: Report): string {
    if call.id in report then report[call.id]
    else if !before.Allowed? then h.refusal(call.name, before)
    else SKIPPED
  }

  function FinalVerdict(h: Host, before: Verdict, call: Call, report: Report): Verdict {
    var result := ResultOf(h, before, call, report);
    if before.Allowed? && LooksLikeError(result) then Failed(result) else before
  }

  function AllowedBy(decisions: map<string, Verdict>): Call -> bool {
    (c: Call) => c.id in decisions && decisions[c.id].Allowed?
  }

  function RefusedBy(decisions: map<string, Verdict>): Call -> bool {
    (c: Call) => c.id in decisions && !decisions[c.id].Allowed?
  }

  /** The decisions once the executor has reported: an error report turns an allowed call into
      a failed one. */
  ghost predicate Settled(h: Host, calls: seq<Call>, decisions: map<string, Verdict>, report: Report,
        final: map<string, Verdict>) {
    && (forall i :: 0 <= i < |calls| ==>
         && calls[i].id in decisions && calls[i].id in final
         && final[calls[i].id] == FinalVerdict(h, decisions[calls[i].id], calls[i], report))
    && final.Keys == decisions.Keys
  }

  function ResultTexts(h: Host, calls: seq<Call>, decisions: map<string, Verdict>, report: Report): (r: seq<Block>)
    requires forall c | c in calls :: c.id in decisions
    ensures |r| == |calls|
    ensures forall i :: 0 <= i < |calls| ==>
        r[i] == ToolResult(calls[i].id, ResultOf(h, decisions[calls[i].id], calls[i], report))
  {
    seq(|calls|, i requires 0 <= i < |calls| =>
      ToolResult(calls[i].id, ResultOf(h, decisions[calls[i].id], calls[i], report)))
  }

  method SelectExecutable(calls: seq<Call>, decisions: map<string, Verdict>) returns (executable: seq<Call>)
    requires forall c | c in calls :: c.id in decisions
    ensures executable == Passing(calls, AllowedBy(decisions), |calls|)
  {
    executable := [];
    for i := 0 to |calls|
      invariant executable == Passing(calls, AllowedBy(decisions), i)
    {
      if decisions[calls[i].id].Allowed? {
        executable := executable + [calls[i]];
      }
    }
  }

  /** Settles the decisions by what the executor reported, and answers every call, in order. */
  method AnswerCalls(h: Host, calls: seq<Call>, decisions: map<string, Verdict>, report: Report)
      returns (final: map<string, Verdict>, results: seq<Block>)
    requires DistinctIds(calls) && (forall c | c in calls :: c.id in decisions)
    ensures Settled(h, calls, decisions, report, final)
    ensures results == ResultTexts(h, calls, decisions, report)
  {
    final, results := decisions, [];
    for i := 0 to |calls|
      invariant final.Keys == decisions.Keys
      invariant forall k {:trigger calls[k]} :: 0 <= k < i ==>
          final[calls[k].id] == FinalVerdict(h, decisions[calls[k].id], calls[k], report)
      invariant forall k {:trigger calls[k]} :: i <= k < |calls| ==> final[calls[k].id] == decisions[calls[k].id]
      invariant |results| == i && forall k {:trigger results[k]} :: 0 <= k < i ==>
          results[k] == ResultTexts(h, calls, decisions, report)[k]
    {
      var call := calls[i];
      assert forall k {:trigger calls[k]} | 0 <= k < |calls| && k != i :: calls[k].id != call.id;
      var result := ResultOf(h, decisions[call.id], call, report);
      if final[call.id].Allowed? && LooksLikeError(result) {
        final := final[call.id := Failed(result)];
      }
      results := results + [ToolResult(call.id, result)];
    }
  }

  // ---- Accounting -------------------------------------------------------------------

  lemma {:induction false} PassingIff(calls: seq<Call>, test: Call -> bool, n: nat, c: Call)
    requires n <= |calls|
    ensures c in Passing(calls, test, n) <==> c in calls[..n] && test(c)
  {
    if n > 0 {
      PassingIff(calls, test, n - 1, c);
      assert calls[..n] == calls[..n - 1] + [calls[n - 1]];
    }
  }

  lemma {:induction false} PassingSplits(calls: seq<Call>, yes: Call -> bool, no: Call -> bool, n: nat)
    requires n <= |calls| && forall i {:trigger calls[i]} :: 0 <= i < |calls| ==> no(calls[i]) == !yes(calls[i])
    ensures |Passing(calls, yes, n)| + |Passing(calls, no, n)| == n
    ensures multiset(Passing(calls, yes, n)) + multiset(Passing(calls, no, n)) == multiset(calls[..n])
  {
    if n > 0 {
      PassingSplits(calls, yes, no, n - 1);
      var a, b, c := Passing(calls, yes, n - 1), Passing(calls, no, n - 1), calls[n - 1];
      assert calls[..n] == calls[..n - 1] + [c];
      AddOne(a, b, calls[..n - 1], c);
      if yes(c) {
        assert Passing(calls, yes, n) == a + [c] && Passing(calls, no, n) == b + [] == b;
      } else {
        assert Passing(calls, no, n) == b + [c] && Passing(calls, yes, n) == a + [] == a;
      }
    }
  }

  lemma {:induction false} AddOne<T>(a: seq<T>, b: seq<T>, whole: seq<T>, c: T)
    requires multiset(a) + multiset(b) == multiset(whole)
    ensures multiset(a + [c]) + multiset(b) == multiset(whole + [c])
    ensures multiset(a) + multiset(b + [c]) == multiset(whole + [c])
  {
    assert multiset(a + [c]) == multiset(a) + multiset{c};
    assert multiset(b + [c]) == multiset(b) + multiset{c};
    assert multiset(whole + [c]) == multiset(whole) + multiset{c};
  }

  /** However many calls the model makes, at most the quota is handed to the executor. */
  lemma {:induction false} HandedWithinQuota(h: Host, granted: seq<string>, calls: seq<Call>,
        decisions: map<string, Verdict>, n: nat)
    requires n <= |calls| && Decided(h, granted, calls, decisions)
    ensures |Passing(calls, AllowedBy(decisions), n)| <= if n < h.limit then n else h.limit
  {
    if n > 0 {
      HandedWithinQuota(h, granted, calls, decisions, n - 1);
    }
  }

  /** A call reaches the executor exactly when it is among the first calls the quota allows
      and its tool is offered, named by the policy, no delegation tool, and destructive only
      when that is authorized. */
  lemma {:induction false} HandedIff(h: Host, allowed: set<string>, tools: seq<string>, calls: seq<Call>,
        decisions: map<string, Verdict>, i: nat)
    requires i < |calls| && DistinctIds(calls)
    requires Decided(h, Granted(h, allowed, tools, |tools|), calls, decisions)
    ensures calls[i] in Passing(calls, AllowedBy(decisions), |calls|)
       <==> i < h.limit && calls[i].name != "" && calls[i].name in tools
            && calls[i].name in allowed
            && calls[i].name !in h.never
            && (IsDestructive(h, calls[i].name) ==> h.authorized)
  {
    GatesAgree(h, allowed, tools, calls[i], i);
    GrantedIff(h, allowed, tools, |tools|, calls[i].name);
    assert tools[..|tools|] == tools && calls[..|calls|] == calls;
    PassingIff(calls, AllowedBy(decisions), |calls|, calls[i]);
  }

  /** A call counts as executed exactly when it was handed over and the executor reported
      something other than an error for it. */
  lemma {:induction false} ExecutedIff(h: Host, calls: seq<Call>, decisions: map<string, Verdict>, report: Report,
        final: map<string, Verdict>, c: Call)
    requires Settled(h, calls, decisions, report, final) && c in calls
    ensures c in Passing(calls, AllowedBy(final), |calls|)
       <==> c in Passing(calls, AllowedBy(decisions), |calls|) && c.id in report && !LooksLikeError(report[c.id])
  {
    assert calls[..|calls|] == calls;
    PassingIff(calls, AllowedBy(final), |calls|, c);
    PassingIff(calls, AllowedBy(decisions), |calls|, c);
    SkippedLooksLikeError();
  }

  /** The calls asked for are exactly the executed ones and the denied ones. */
  lemma {:induction false} RequestedSplits(h: Host, calls: seq<Call>, decisions: map<string, Verdict>, report: Report,
        final: map<string, Verdict>)
    requires Settled(h, calls, decisions, report, final)
    ensures var executed, denied :=
        Passing(calls, AllowedBy(final), |calls|), Passing(calls, RefusedBy(final), |calls|);
      multiset(executed) + multiset(denied) == multiset(calls)
  {
    assert calls[..|calls|] == calls;
    forall i {:trigger calls[i]} | 0 <= i < |calls|
      ensures RefusedBy(final)(calls[i]) == !AllowedBy(final)(calls[i])
    {
    }
    PassingSplits(calls, AllowedBy(final), RefusedBy(final), |calls|);
  }

  /** No call is both. */
  lemma {:induction false} ExecutedOrDenied(h: Host, calls: seq<Call>, decisions: map<string, Verdict>, report: Report,
        final: map<string, Verdict>)
    requires Settled(h, calls, decisions, report, final)
    ensures forall c | c in calls ::
        c in Passing(calls, AllowedBy(final), |calls|) <==> c !in Passing(calls, RefusedBy(final), |calls|)
  {
    assert calls[..|calls|] == calls;
    forall c | c in calls
      ensures c in Passing(calls, AllowedBy(final), |calls|) <==> c !in Passing(calls, RefusedBy(final), |calls|)
    {
      PassingIff(calls, AllowedBy(final), |calls|, c);
      PassingIff(calls, RefusedBy(final), |calls|, c);
    }
  }

  /** The conversation of the delegation gains one answer for every call, in the order of the
      calls, whatever was denied, skipped or failed. */
  lemma {:induction false} AnswersMatchCalls(h: Host, calls: seq<Call>, decisions: map<string, Verdict>, report: Report)
    requires forall c | c in calls :: c.id in decisions
    ensures ResultsOf(ResultTexts(h, calls, decisions, report)) == CallIds(calls)
  {
    if calls != [] {
      AnswersMatchCalls(h, calls[1..], decisions, report);
      var texts := ResultTexts(h, calls, decisions, report);
      assert texts[1..] == ResultTexts(h, calls[1..], decisions, report);
      assert CallIds(calls) == [calls[0].id] + CallIds(calls[1..]);
    }
  }

  /** One round of delegated tool use. */
  method RunTools(h: Host, policy: Policy, tools: seq<string>, calls: seq<Call>, executor: seq<Call> -> Report)
    returns (handed: seq<Call>, executed: seq<Call>, denied: seq<Call>, results: seq<Block>)
    requires DistinctIds(calls)
    ensures |handed| <= h.limit
    ensures forall c | c in handed :: c in calls
    ensures forall i {:trigger calls[i]} | 0 <= i < |calls| ::
      calls[i] in handed <==>
        i < h.limit && calls[i].name != "" && Cleared(h, AllowedNames(h, tools, policy), tools, calls[i].name)
    ensures forall c | c in calls ::
        c in executed <==> c in handed && c.id in executor(handed) && !LooksLikeError(executor(handed)[c.id])
    ensures multiset(executed) + multiset(denied) == multiset(calls)
    ensures ResultsOf(results) == CallIds(calls)
    ensures |results| == |calls| && forall i | 0 <= i < |calls| ::
      && results[i].ToolResult? && results[i].toolUseId == calls[i].id
      && (handed != [] && calls[i].id in executor(handed) ==> results[i].content == executor(handed)[calls[i].id])
      && (calls[i] in handed && calls[i].id !in executor(handed) ==>
           results[i].content == "Error: tool execution skipped")
  {
    var granted, deniedTools := SelectTools(h, tools, policy);
    var decisions := AuthorizeToolCalls(h, granted, calls);
    handed := SelectExecutable(calls, decisions);
    var report := if handed == [] then map[] else executor(handed);
    var final;
    final, results := AnswerCalls(h, calls, decisions, report);
    executed, denied := Passing(calls, AllowedBy(final), |calls|), Passing(calls, RefusedBy(final), |calls|);
    HandedWithinQuota(h, granted, calls, decisions, |calls|);
    RequestedSplits(h, calls, decisions, report, final);
    AnswersMatchCalls(h, calls, decisions, report);
    HandedExactly(h, AllowedNames(h, tools, policy), tools, calls, decisions);
    ExecutedExactly(h, calls, decisions, report, final);
    forall i | 0 <= i < |calls| && calls[i] in handed
      ensures decisions[calls[i].id].Allowed?
    {
      PassingIff(calls, AllowedBy(decisions), |calls|, calls[i]);
    }
  }

  /** A tool a delegated agent may use. */
  predicate Cleared(h: Host, allowed: set<string>, tools: seq<string>, name: string) {
    name in tools && name in allowed && name !in h.never && (IsDestructive(h, name) ==> h.authorized)
  }

  lemma {:induction false} HandedExactly(h: Host, allowed: set<string>, tools: seq<string>, calls: seq<Call>,
        decisions: map<string, Verdict>)
    requires DistinctIds(calls) && Decided(h, Granted(h, allowed, tools, |tools|), calls, decisions)
    ensures forall c | c in Passing(calls, AllowedBy(decisions), |calls|) :: c in calls
    ensures forall i {:trigger calls[i]} | 0 <= i < |calls| ::
      calls[i] in Passing(calls, AllowedBy(decisions), |calls|) <==>
        i < h.limit && calls[i].name != "" && Cleared(h, allowed, tools, calls[i].name)
  {
    assert calls[..|calls|] == calls;
    forall c | c in Passing(calls, AllowedBy(decisions), |calls|)
      ensures c in calls
    {
      PassingIff(calls, AllowedBy(decisions), |calls|, c);
    }
    forall i | 0 <= i < |calls|
      ensures calls[i] in Passing(calls, AllowedBy(decisions), |calls|) <==>
        i < h.limit && calls[i].name != "" && Cleared(h, allowed, tools, calls[i].name)
    {
      HandedIff(h, allowed, tools, calls, decisions, i);
    }
  }

  lemma {:induction false} ExecutedExactly(h: Host, calls: seq<Call>, decisions: map<string, Verdict>, report: Report,
        final: map<string, Verdict>)
    requires Settled(h, calls, decisions, report, final)
    ensures forall c | c in calls ::
      c in Passing(calls, AllowedBy(final), |calls|) <==>
        c in Passing(calls, AllowedBy(decisions), |calls|) && c.id in report && !LooksLikeError(report[c.id])
  {
    forall c | c in calls
      ensures c in Passing(calls, AllowedBy(final), |calls|)
        <==> c in Passing(calls, AllowedBy(decisions), |calls|) && c.id in report && !LooksLikeError(report[c.id])
    {
      ExecutedIff(h, calls, decisions, report, final, c);
    }
  }
}
