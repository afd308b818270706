/** The table of delegated agents: runs start, wait for replies and tools, are cancelled, and
    end, in any interleaving. One step is the code between two waits. */
module RunTable {
  import opened Options

  type Id = string

  // ---- Token usage ------------------------------------------------------------------

  /** What replies report; a key may be missing. */
  datatype Usage = Usage(input: Option<int>, output: Option<int>, total: Option<int>)

  const NO_USAGE := Usage(None, None, None)

  function OrZero(n: Option<int>): int {
    if n.Some? then n.value else 0
  }

  function Plus(a: Option<int>, b: Option<int>): Option<int> {
    if a.Some? || b.Some? then Some(OrZero(a) + OrZero(b)) else None
  }

  function Accumulate(a: Usage, b: Usage): Usage {
    Usage(Plus(a.input, b.input), Plus(a.output, b.output), Plus(a.total, b.total))
  }

  /** The tokens a usage stands for: its total, unless that is missing or zero. */
  function Used(u: Usage): int {
    if OrZero(u.total) != 0 then OrZero(u.total) else OrZero(u.input) + OrZero(u.output)
  }

  function AccumulateAll(replies: seq<Usage>): Usage {
    if replies == [] then NO_USAGE else Accumulate(AccumulateAll(replies[..|replies| - 1]), replies[|replies| - 1])
  }

  /** What the replies used, each by its own report. */
  function Spent(replies: seq<Usage>): int {
    if replies == [] then 0 else Spent(replies[..|replies| - 1]) + Used(replies[|replies| - 1])
  }

  predicate NonNegative(u: Usage) {
    OrZero(u.input) >= 0 && OrZero(u.output) >= 0 && OrZero(u.total) >= 0
  }

  ghost predicate SomeTotal(replies: seq<Usage>) {
    exists i :: 0 <= i < |replies| && OrZero(replies[i].total) > 0
  }

  /** Every reply that reports tokens reports their total. */
  ghost predicate AllTotals(replies: seq<Usage>) {
    forall i :: 0 <= i < |replies| && OrZero(replies[i].total) == 0 ==> Used(replies[i]) == 0
  }

  lemma {:induction false} SpentBreakdown(replies: seq<Usage>)
    requires forall i :: 0 <= i < |replies| ==> NonNegative(replies[i])
    ensures var all := AccumulateAll(replies);
      && NonNegative(all)
      && Spent(replies) >= OrZero(all.total)
      && (OrZero(all.total) > 0 <==> SomeTotal(replies))
      && (Spent(replies) == OrZero(all.total) <==> AllTotals(replies))
      && Spent(replies) >= Used(all)
      && (!SomeTotal(replies) ==> Spent(replies) == OrZero(all.input) + OrZero(all.output))
  {
    if replies != [] {
      var n := |replies| - 1;
      var before := replies[..n];
      SpentBreakdown(before);
      assert replies == before + [replies[n]];
      assert SomeTotal(replies) <==> SomeTotal(before) || OrZero(replies[n].total) > 0;
      assert AllTotals(replies) <==> AllTotals(before) && (OrZero(replies[n].total) == 0 ==> Used(replies[n]) == 0);
    }
  }

  /** The quota is charged what the replies used exactly when no reply reports a total or all
      that report anything do; otherwise it is charged less. */
  lemma {:induction false} UsedIsSpentIff(replies: seq<Usage>)
    requires forall i :: 0 <= i < |replies| ==> NonNegative(replies[i])
    ensures Used(AccumulateAll(replies)) <= Spent(replies)
    ensures Used(AccumulateAll(replies)) == Spent(replies) <==> !SomeTotal(replies) || AllTotals(replies)
  {
    SpentBreakdown(replies);
  }

  // ---- Runs -------------------------------------------------------------------------

  datatype Status = Running | Completed | QuotaExceeded | Cancelled | TimedOut | Failed

  datatype Run = Run(id: Id, status: Status, maxTokens: int, usage: Usage, usedTokens: int,
                     overQuota: bool, stopRequested: bool, calls: nat, resumptions: nat)

  /** What a suspended run waits for. */
  datatype Phase = FirstReply | Tools | FinalReply | SchemaReply

  datatype Active = Active(run: Run, phase: Phase, wantsSchema: bool)

  /** The tool calls of a reply: none, all of them denied (nothing to wait for), or some. */
  datatype ToolNeed = NoCalls | AllDenied | SomeRun

  datatype Resumption =
    | Reply(usage: Usage, need: ToolNeed, matchesSchema: bool)
    | ToolsDone
    | Timeout
    | Fault
    | Cancel

  /** What one step leads to. */
  datatype Progress = Waits(active: Active) | Ends(run: Run)

  function SyncQuota(r: Run): Run {
    r.(usedTokens := Used(r.usage), overQuota := Used(r.usage) > r.maxTokens)
  }

  function MarkQuota(r: Run): Run {
    if Used(r.usage) > r.maxTokens then SyncQuota(r).(status := QuotaExceeded) else SyncQuota(r)
  }

  /** The quota check right before a run completes. */
  function Conclude(r: Run): Progress {
    if Used(r.usage) > r.maxTokens then Ends(MarkQuota(r)) else Ends(MarkQuota(r).(status := Completed))
  }

  function AskAgain(a: Active, phase: Phase): Progress {
    Waits(a.(run := a.run.(calls := a.run.calls + 1), phase := phase))
  }

  /** A reply that asks for no further tools. */
  function OnText(a: Active, matches: bool): Progress {
    if a.wantsSchema && !matches then AskAgain(a, SchemaReply) else Conclude(a.run)
  }

  function OnReply(a: Active, need: ToolNeed, matches: bool): Progress {
    var marked := a.(run := MarkQuota(a.run));
    if a.phase.SchemaReply? then Conclude(a.run)
    else if Used(a.run.usage) > a.run.maxTokens then Ends(marked.run)
    else if a.phase.FirstReply? && need.AllDenied? then AskAgain(marked, FinalReply)
    else if a.phase.FirstReply? && need.SomeRun? then Waits(marked.(phase := Tools))
    else OnText(marked, matches)
  }

  function Proceed(a: Active, e: Resumption): Progress {
    var resumed := a.(run := a.run.(resumptions := a.run.resumptions + 1));
    match e
    case Cancel => Ends(resumed.run.(status := Cancelled))
    case Timeout => if a.phase.SchemaReply? then Conclude(resumed.run) else Ends(resumed.run.(status := TimedOut))
    case Fault => if a.phase.SchemaReply? then Conclude(resumed.run) else Ends(resumed.run.(status := Failed))
    case ToolsDone => AskAgain(resumed, FinalReply)
    case Reply(usage, need, matches) =>
      OnReply(resumed.(run := resumed.run.(usage := Accumulate(resumed.run.usage, usage))), need, matches)
  }

  function Finish(r: Run): Run {
    if r.status.Running? || r.status.Completed? then MarkQuota(r) else SyncQuota(r)
  }

  /** A suspended run can be resumed like this; once its task is cancelled, only by that. */
  predicate Enabled(a: Active, e: Resumption) {
    && (a.run.stopRequested ==> e.Cancel?)
    && match e
       case Reply(_, _, _) => !a.phase.Tools?
       case ToolsDone => a.phase.Tools?
       case _ => true
  }

  // ---- The table --------------------------------------------------------------------

  datatype Limits = Limits(initialized: bool, maxTokens: int, maxConcurrent: nat, history: nat)

  /** The active runs, the bounded history, and everything ever recorded or started. */
  datatype Table = Table(active: map<Id, Active>, runs: seq<Run>, recorded: seq<Run>, started: set<Id>)

  datatype Step = Begin(id: Id, requested: int, wantsSchema: bool) | Resume(id: Id, event: Resumption) | CancelAll

  function Clamp(limits: Limits, requested: int): int {
    var wanted := if requested == 0 || requested > limits.maxTokens then limits.maxTokens else requested;
    if wanted > 1 then wanted else 1
  }

  /** A run's token quota is what was asked for, as far as the runtime's own limit allows. */
  lemma {:induction false} ClampInRange(limits: Limits, requested: int)
    requires limits.maxTokens >= 1
    ensures 1 <= Clamp(limits, requested) <= limits.maxTokens
    ensures 1 <= requested <= limits.maxTokens ==> Clamp(limits, requested) == requested
    ensures requested == 0 || requested > limits.maxTokens ==> Clamp(limits, requested) == limits.maxTokens
  {
  }

  function NewRun(limits: Limits, id: Id, requested: int): Run {
    Run(id, Running, Clamp(limits, requested), NO_USAGE, 0, false, false, 0, 0)
  }

  function Last<T>(s: seq<T>, n: nat): seq<T> {
    if |s| <= n then s else s[|s| - n..]
  }

  function Record(limits: Limits, t: Table, r: Run): Table {
    t.(runs := Last(t.runs + [Finish(r)], limits.history), recorded := t.recorded + [Finish(r)])
  }

  function BeginRun(limits: Limits, t: Table, id: Id, requested: int, wantsSchema: bool): Table {
    var run, next := NewRun(limits, id, requested), t.(started := t.started + {id});
    if !limits.initialized then Record(limits, next, run.(status := Failed))
    else if |t.active| >= limits.maxConcurrent then Record(limits, next, run.(status := QuotaExceeded))
    else next.(active := t.active[id := Active(run.(calls := 1), FirstReply, wantsSchema)])
  }

  function ResumeRun(limits: Limits, t: Table, id: Id, e: Resumption): Table {
    if id !in t.active || !Enabled(t.active[id], e) then t
    else
      match Proceed(t.active[id], e)
      case Waits(a) => t.(active := t.active[id := a])
      case Ends(r) => Record(limits, t.(active := t.active - {id}), r)
  }

  function Stop(a: Active): Active {
    a.(run := a.run.(stopRequested := true))
  }

  function StopAll(t: Table): Table {
    t.(active := map id | id in t.active :: Stop(t.active[id]))
  }

  function Next(limits: Limits, t: Table, s: Step): Table {
    match s
    case Begin(id, requested, wantsSchema) => BeginRun(limits, t, id, requested, wantsSchema)
    case Resume(id, e) => ResumeRun(limits, t, id, e)
    case CancelAll => StopAll(t)
  }

  function Iterate(next: (Table, Step) -> Table, t: Table, steps: seq<Step>, n: nat): Table
    requires n <= |steps|
  {
    if n == 0 then t else next(Iterate(next, t, steps, n - 1), steps[n - 1])
  }

  function Moves(limits: Limits): (Table, Step) -> Table {
    (t: Table, s: Step) => Next(limits, t, s)
  }

  /** The table after the first n steps. */
  function Trace(limits: Limits, t: Table, steps: seq<Step>, n: nat): Table
    requires n <= |steps|
  {
    Iterate(Moves(limits), t, steps, n)
  }

  // ---- One run ----------------------------------------------------------------------

  function Remaining(p: Phase): nat {
    match p
    case FirstReply => 4
    case Tools => 3
    case FinalReply => 2
    case SchemaReply => 1
  }

  function CallsSoFar(p: Phase): nat {
    match p
    case FirstReply => 1
    case Tools => 1
    case FinalReply => 2
    case SchemaReply => 3
  }

  /** A run that waits is within its quota and has made few calls. */
  predicate WaitsProperly(a: Active) {
    && a.run.status.Running?
    && Used(a.run.usage) <= a.run.maxTokens
    && a.run.calls <= CallsSoFar(a.phase)
    && a.run.resumptions + Remaining(a.phase) <= 4
  }

  /** A run as it may be recorded. */
  predicate Settled(r: Run) {
    && !r.status.Running?
    && r.usedTokens == Used(r.usage)
    && (r.overQuota <==> r.usedTokens > r.maxTokens)
    && (r.status.Completed? ==> r.usedTokens <= r.maxTokens)
    && (r.status.QuotaExceeded? ==> r.overQuota || r.calls == 0)
    && r.calls <= 3 && r.resumptions <= 4
  }

  /** What a step may lead to from a run that waits. */
  predicate ProperProgress(a: Active, p: Progress) {
    match p
    case Waits(b) => WaitsProperly(b) && b.run.id == a.run.id && Remaining(b.phase) < Remaining(a.phase)
    case Ends(r) => Settled(Finish(r)) && r.id == a.run.id && Finish(r).status == r.status
  }

  lemma {:induction false} ConcludeIsSettled(r: Run)
    requires r.status.Running? && r.calls <= 3 && r.resumptions <= 4
    ensures Conclude(r).Ends? && Conclude(r).run.id == r.id
    ensures Settled(Finish(Conclude(r).run)) && Finish(Conclude(r).run).status == Conclude(r).run.status
  {
  }

  lemma {:induction false} ReplyIsProper(a: Active, usage: Usage, need: ToolNeed, matches: bool)
    requires WaitsProperly(a) && !a.phase.Tools?
    ensures ProperProgress(a, Proceed(a, Reply(usage, need, matches)))
  {
    var b := a.(run := a.run.(resumptions := a.run.resumptions + 1, usage := Accumulate(a.run.usage, usage)));
    assert Proceed(a, Reply(usage, need, matches)) == OnReply(b, need, matches);
    if a.phase.SchemaReply? || Used(b.run.usage) > b.run.maxTokens {
      OverOrLast(b, need, matches);
    } else {
      WithinQuotaIsProper(b, need, matches);
    }
  }

  /** The last possible reply, or one that exhausts the quota. */
  lemma {:induction false} OverOrLast(b: Active, need: ToolNeed, matches: bool)
    requires b.run.status.Running? && b.run.calls <= 3 && b.run.resumptions <= 4
    requires b.phase.SchemaReply? || Used(b.run.usage) > b.run.maxTokens
    ensures ProperProgress(b, OnReply(b, need, matches))
  {
    ConcludeIsSettled(b.run);
  }

  /** A reply within the quota. */
  lemma {:induction false} WithinQuotaIsProper(b: Active, need: ToolNeed, matches: bool)
    requires b.run.status.Running? && Used(b.run.usage) <= b.run.maxTokens
    requires (b.phase.FirstReply? || b.phase.FinalReply?)
    requires b.run.calls <= CallsSoFar(b.phase) && b.run.resumptions + Remaining(b.phase) <= 5
    ensures ProperProgress(b, OnReply(b, need, matches))
  {
    var marked := MarkQuota(b.run);
    assert marked.status.Running? && marked.usage == b.run.usage && marked.id == b.run.id;
    if b.phase.FinalReply? || need.NoCalls? {
      if !b.wantsSchema || matches {
        ConcludeIsSettled(marked);
      }
    }
  }

  /** Each step either ends a run for good or moves it to a later phase, within its quota. */
  lemma {:induction false} ProceedIsProper(a: Active, e: Resumption)
    requires WaitsProperly(a) && Enabled(a, e)
    ensures ProperProgress(a, Proceed(a, e))
  {
    match e
    case Reply(usage, need, matches) => ReplyIsProper(a, usage, need, matches);
    case _ => ConcludeIsSettled(a.run.(resumptions := a.run.resumptions + 1));
  }

  // ---- The whole table --------------------------------------------------------------

  function Ids(runs: seq<Run>): seq<Id> {
    seq(|runs|, i requires 0 <= i < |runs| => runs[i].id)
  }

  /** Every started id is in exactly one place: among the active ones, or recorded, once. */
  ghost predicate Accounted(started: set<Id>, active: set<Id>, recorded: seq<Id>) {
    && (forall id {:trigger id in started} :: id in started <==> id in active || id in recorded)
    && (forall id | id in active :: id !in recorded)
    && (forall i, j :: 0 <= i < j < |recorded| ==> recorded[i] != recorded[j])
  }

  ghost predicate AllSettled(runs: seq<Run>) {
    forall r | r in runs :: Settled(r)
  }

  ghost predicate AllWait(active: map<Id, Active>) {
    forall id | id in active :: active[id].run.id == id && WaitsProperly(active[id])
  }

  ghost predicate Valid(limits: Limits, t: Table) {
    && |t.active.Keys| <= limits.maxConcurrent
    && t.runs == Last(t.recorded, limits.history)
    && Accounted(t.started, t.active.Keys, Ids(t.recorded))
    && AllWait(t.active) && AllSettled(t.recorded)
  }

  lemma {:induction false} LastOfLast<T>(s: seq<T>, x: T, n: nat)
    ensures Last(Last(s, n) + [x], n) == Last(s + [x], n)
  {
    if |s| > n {
      assert Last(s, n) + [x] == (s + [x])[|s| - n..];
    }
  }

  lemma {:induction false} AccountedRecorded(started: set<Id>, active: set<Id>, recorded: seq<Id>, id: Id)
    requires Accounted(started, active + {id}, recorded) && id !in active
    ensures Accounted(started, active, recorded + [id])
  {
  }

  lemma {:induction false} AccountedStarted(started: set<Id>, active: set<Id>, recorded: seq<Id>, id: Id)
    requires Accounted(started, active, recorded) && id !in started
    ensures Accounted(started + {id}, active + {id}, recorded)
  {
  }

  /** Recording a run that is no longer active. */
  lemma {:induction false} RecordKeeps(limits: Limits, t: Table, r: Run)
    requires t.runs == Last(t.recorded, limits.history) && |t.active.Keys| <= limits.maxConcurrent
    requires AllWait(t.active) && AllSettled(t.recorded) && Settled(Finish(r))
    requires Accounted(t.started, t.active.Keys + {r.id}, Ids(t.recorded)) && r.id !in t.active
    ensures Valid(limits, Record(limits, t, r))
  {
    var f := Finish(r);
    LastOfLast(t.recorded, f, limits.history);
    AccountedRecorded(t.started, t.active.Keys, Ids(t.recorded), r.id);
    assert Ids(t.recorded + [f]) == Ids(t.recorded) + [f.id];
  }

  lemma {:induction false} NewRunIsProper(limits: Limits, id: Id, requested: int, wantsSchema: bool)
    ensures var run := NewRun(limits, id, requested);
      && WaitsProperly(Active(run.(calls := 1), FirstReply, wantsSchema))
      && Settled(Finish(run.(status := Failed))) && Settled(Finish(run.(status := QuotaExceeded)))
  {
  }

  lemma {:induction false} BeginKeeps(limits: Limits, t: Table, id: Id, requested: int, wantsSchema: bool)
    requires Valid(limits, t) && id !in t.started
    ensures Valid(limits, BeginRun(limits, t, id, requested, wantsSchema))
  {
    var run, next := NewRun(limits, id, requested), t.(started := t.started + {id});
    AccountedStarted(t.started, t.active.Keys, Ids(t.recorded), id);
    NewRunIsProper(limits, id, requested, wantsSchema);
    if !limits.initialized {
      RecordKeeps(limits, next, run.(status := Failed));
    } else if |t.active| >= limits.maxConcurrent {
      RecordKeeps(limits, next, run.(status := QuotaExceeded));
    } else {
      Activate(limits, t, Active(run.(calls := 1), FirstReply, wantsSchema));
    }
  }

  lemma {:induction false} Activate(limits: Limits, t: Table, a: Active)
    requires Valid(limits, t) && a.run.id !in t.started && |t.active.Keys| < limits.maxConcurrent && WaitsProperly(a)
    ensures Valid(limits, t.(started := t.started + {a.run.id}, active := t.active[a.run.id := a]))
  {
    AccountedStarted(t.started, t.active.Keys, Ids(t.recorded), a.run.id);
    assert t.active[a.run.id := a].Keys == t.active.Keys + {a.run.id};
  }

  lemma {:induction false} Replace(limits: Limits, t: Table, a: Active)
    requires Valid(limits, t) && a.run.id in t.active && WaitsProperly(a)
    ensures Valid(limits, t.(active := t.active[a.run.id := a]))
  {
    assert t.active[a.run.id := a].Keys == t.active.Keys;
  }

  lemma {:induction false} Remove(limits: Limits, t: Table, r: Run)
    requires Valid(limits, t) && r.id in t.active && Settled(Finish(r))
    ensures Valid(limits, Record(limits, t.(active := t.active - {r.id}), r))
  {
    var rest := t.active - {r.id};
    assert rest.Keys == t.active.Keys - {r.id} && rest.Keys + {r.id} == t.active.Keys;
    assert |rest.Keys| == |t.active.Keys| - 1;
    assert AllWait(rest);
    RecordKeeps(limits, t.(active := rest), r);
  }

  lemma {:induction false} ResumeKeeps(limits: Limits, t: Table, id: Id, e: Resumption)
    requires Valid(limits, t)
    ensures Valid(limits, ResumeRun(limits, t, id, e))
  {
    if id in t.active && Enabled(t.active[id], e) {
      ProceedIsProper(t.active[id], e);
      match Proceed(t.active[id], e)
      case Waits(b) => Replace(limits, t, b);
      case Ends(r) => Remove(limits, t, r);
    }
  }

  lemma {:induction false} StopKeeps(limits: Limits, t: Table)
    requires Valid(limits, t)
    ensures Valid(limits, StopAll(t))
  {
    assert StopAll(t).active.Keys == t.active.Keys;
  }

  predicate IsFresh(t: Table, s: Step) {
    s.Begin? ==> s.id !in t.started
  }

  lemma {:induction false} NextKeeps(limits: Limits, t: Table, s: Step)
    requires Valid(limits, t) && IsFresh(t, s)
    ensures Valid(limits, Next(limits, t, s))
  {
    match s
    case Begin(id, requested, wantsSchema) => BeginKeeps(limits, t, id, requested, wantsSchema);
    case Resume(id, e) => ResumeKeeps(limits, t, id, e);
    case CancelAll => StopKeeps(limits, t);
  }

  function Begun(steps: seq<Step>, n: nat): set<Id>
    requires n <= |steps|
  {
    if n == 0 then {} else Begun(steps, n - 1) + if steps[n - 1].Begin? then {steps[n - 1].id} else {}
  }

  /** No run id is used twice. */
  ghost predicate DistinctBegins(steps: seq<Step>) {
    forall n: nat :: n < |steps| ==> StartsNew(steps, n)
  }

  predicate StartsNew(steps: seq<Step>, n: nat)
    requires n < |steps|
  {
    steps[n].Begin? ==> steps[n].id !in Begun(steps, n)
  }

  lemma {:induction false} NextStarts(limits: Limits, t: Table, s: Step)
    ensures Next(limits, t, s).started == t.started + if s.Begin? then {s.id} else {}
  {
  }

  const EMPTY := Table(map[], [], [], {})

  /** The table is valid and knows exactly the runs of the first n steps. */
  ghost predicate ValidAfter(limits: Limits, steps: seq<Step>, t: Table, n: nat)
    requires n <= |steps|
  {
    Valid(limits, t) && t.started == Begun(steps, n)
  }

  /** What each move keeps holds after all of them. */
  lemma {:induction false} IterateStaysValid(next: (Table, Step) -> Table, limits: Limits, steps: seq<Step>, n: nat)
    requires n <= |steps| && ValidAfter(limits, steps, EMPTY, 0)
    requires forall t, k: nat {:trigger next(t, steps[k])} :: k < |steps| && ValidAfter(limits, steps, t, k) ==>
      ValidAfter(limits, steps, next(t, steps[k]), k + 1)
    ensures ValidAfter(limits, steps, Iterate(next, EMPTY, steps, n), n)
  {
    if n > 0 {
      IterateStaysValid(next, limits, steps, n - 1);
    }
  }

  /** Over every interleaving of starts, resumptions and cancellations: at most the permitted
      number of runs is active; every run started is active or recorded, once; no run is
      recorded unfinished, and a completed one is within its token quota, after at most three
      model calls and four resumptions; the history is the latest part of the record. */
  lemma {:induction false} TableIsAlwaysValid(limits: Limits, steps: seq<Step>, n: nat)
    requires n <= |steps| && DistinctBegins(steps)
    ensures ValidAfter(limits, steps, Trace(limits, EMPTY, steps, n), n)
  {
    var next := Moves(limits);
    EmptyIsValid(limits);
    forall t, k: nat | k < |steps| && ValidAfter(limits, steps, t, k)
      ensures ValidAfter(limits, steps, next(t, steps[k]), k + 1)
    {
      StepStaysValid(limits, t, next(t, steps[k]), steps, k);
    }
    IterateStaysValid(next, limits, steps, n);
  }

  lemma {:induction false} EmptyIsValid(limits: Limits)
    ensures Valid(limits, EMPTY)
  {
    assert Accounted({}, EMPTY.active.Keys, Ids(EMPTY.recorded));
  }

  lemma {:induction false} StepStaysValid(limits: Limits, t: Table, after: Table, steps: seq<Step>, n: nat)
    requires n < |steps| && DistinctBegins(steps) && Valid(limits, t) && t.started == Begun(steps, n)
    requires after == Next(limits, t, steps[n])
    ensures Valid(limits, after) && after.started == Begun(steps, n + 1)
  {
    assert StartsNew(steps, n);
    NextKeeps(limits, t, steps[n]);
    NextStarts(limits, t, steps[n]);
  }

  // ---- Cancelling -------------------------------------------------------------------

  ghost predicate RecordedAs(t: Table, id: Id, status: Status) {
    exists r | r in t.recorded :: r.id == id && r.status == status
  }

  /** The run has been asked to stop and has not ended, or it has ended as cancelled. */
  ghost predicate StopsOrStopped(t: Table, id: Id) {
    if id in t.active then t.active[id].run.id == id && t.active[id].run.stopRequested else RecordedAs(t, id, Cancelled)
  }

  lemma {:induction false} RecordsStay(limits: Limits, t: Table, s: Step, id: Id, status: Status)
    requires RecordedAs(t, id, status)
    ensures RecordedAs(Next(limits, t, s), id, status)
  {
    var r :| r in t.recorded && r.id == id && r.status == status;
    assert t.recorded <= Next(limits, t, s).recorded;
    assert r in Next(limits, t, s).recorded;
  }

  lemma {:induction false} StoppedStep(limits: Limits, t: Table, s: Step, id: Id)
    requires StopsOrStopped(t, id) && (s.Begin? ==> s.id != id)
    ensures StopsOrStopped(Next(limits, t, s), id)
  {
    var next := Next(limits, t, s);
    if id !in t.active {
      RecordsStay(limits, t, s, id, Cancelled);
    } else if s.Resume? && s.id == id && s.event.Cancel? {
      var r := Finish(t.active[id].run.(resumptions := t.active[id].run.resumptions + 1, status := Cancelled));
      assert next.recorded == t.recorded + [r] && next.recorded[|t.recorded|] == r;
    }
  }

  /** Every run that is active when all are cancelled ends as cancelled, whatever happens
      before its task is resumed. */
  lemma {:induction false} CancelledRunsEndCancelled(limits: Limits, t: Table, steps: seq<Step>, n: nat, id: Id)
    requires n <= |steps| && Valid(limits, t) && id in t.active
    requires forall i :: 0 <= i < |steps| && steps[i].Begin? ==> steps[i].id != id
    ensures var later := Trace(limits, StopAll(t), steps, n);
      && StopsOrStopped(later, id)
      && (id !in later.active ==> RecordedAs(later, id, Cancelled))
  {
    if n > 0 {
      CancelledRunsEndCancelled(limits, t, steps, n - 1, id);
      StoppedStep(limits, Trace(limits, StopAll(t), steps, n - 1), steps[n - 1], id);
    }
  }

  // ---- A quota evaded ---------------------------------------------------------------

  lemma {:induction false} MixedUsage(m: int)
    requires m > 0
    ensures var replies := [Usage(Some(m), None, None), Usage(None, None, Some(m))];
      Used(AccumulateAll(replies)) == m && Spent(replies) == 2 * m
  {
    var first := Usage(Some(m), None, None);
    var replies := [first, Usage(None, None, Some(m))];
    assert replies[..1] == [first] && [first][..0] == [];
    assert AccumulateAll([first]) == Accumulate(AccumulateAll([]), first);
    assert Spent([first]) == Spent([]) + Used(first);
  }

  /** One run, alone in the table. */
  function Alone(id: Id, a: Active): Table {
    Table(map[id := a], [], [], {id})
  }

  lemma {:induction false} AloneWaits(limits: Limits, id: Id, a: Active, e: Resumption, b: Active)
    requires Enabled(a, e) && Proceed(a, e) == Waits(b)
    ensures Next(limits, Alone(id, a), Resume(id, e)) == Alone(id, b)
  {
    assert map[id := a][id := b] == map[id := b];
  }

  lemma {:induction false} AloneEnds(limits: Limits, id: Id, a: Active, e: Resumption, r: Run)
    requires Enabled(a, e) && Proceed(a, e) == Ends(r)
    ensures Next(limits, Alone(id, a), Resume(id, e)).recorded == [Finish(r)]
  {
    assert [] + [Finish(r)] == [Finish(r)];
  }

  lemma {:induction false} FourMoves(limits: Limits, steps: seq<Step>, t1: Table, t2: Table, t3: Table, t4: Table)
    requires |steps| == 4 && Next(limits, EMPTY, steps[0]) == t1 && Next(limits, t1, steps[1]) == t2
    requires Next(limits, t2, steps[2]) == t3 && Next(limits, t3, steps[3]) == t4
    ensures Trace(limits, EMPTY, steps, 4) == t4
  {
    var next := Moves(limits);
    assert Iterate(next, EMPTY, steps, 1) == next(Iterate(next, EMPTY, steps, 0), steps[0]) == t1;
    assert Iterate(next, EMPTY, steps, 2) == t2;
    assert Iterate(next, EMPTY, steps, 3) == t3;
  }

  /** A reply with a total hides what earlier replies without one used: this run completes
      within its quota of m tokens after replies that used twice as many. */
  lemma {:induction false} MixedReportsHideUsage(limits: Limits, id: Id, m: int)
    requires limits.initialized && limits.maxConcurrent >= 1 && 0 < m <= limits.maxTokens
    ensures var first, last := Usage(Some(m), None, None), Usage(None, None, Some(m));
      var steps := [Begin(id, m, false), Resume(id, Reply(first, SomeRun, true)), Resume(id, ToolsDone),
          Resume(id, Reply(last, NoCalls, true))];
      var t := Trace(limits, EMPTY, steps, 4);
      && Spent([first, last]) == 2 * m
      && |t.recorded| == 1 && t.recorded[0].id == id && t.recorded[0].status == Completed
      && t.recorded[0].maxTokens == m && t.recorded[0].usedTokens == m
  {
    var first, last := Usage(Some(m), None, None), Usage(None, None, Some(m));
    var steps := [Begin(id, m, false), Resume(id, Reply(first, SomeRun, true)), Resume(id, ToolsDone),
        Resume(id, Reply(last, NoCalls, true))];
    MixedUsage(m);
    ClampInRange(limits, m);
    var run := NewRun(limits, id, m).(calls := 1);
    var charged := SyncQuota(run.(resumptions := 1, usage := Accumulate(NO_USAGE, first)));
    var a, b := Active(run, FirstReply, false), Active(charged, Tools, false);
    var c := Active(charged.(resumptions := 2, calls := 2), FinalReply, false);
    assert Next(limits, EMPTY, steps[0]) == Alone(id, a);
    AloneWaits(limits, id, a, Reply(first, SomeRun, true), b);
    AloneWaits(limits, id, b, ToolsDone, c);
    var done := MarkQuota(c.run.(resumptions := 3, usage := Accumulate(c.run.usage, last))).(status := Completed);
    MixedRunEnds(c, last, done, m);
    AloneEnds(limits, id, c, Reply(last, NoCalls, true), done);
    FourMoves(limits, steps, Alone(id, a), Alone(id, b), Alone(id, c), Next(limits, Alone(id, c), steps[3]));
  }

  lemma {:induction false} MixedRunEnds(c: Active, last: Usage, done: Run, m: int)
    requires m > 0 && last == Usage(None, None, Some(m))
    requires c.run.usage == Accumulate(NO_USAGE, Usage(Some(m), None, None))
    requires c.phase.FinalReply? && !c.wantsSchema && c.run.maxTokens == m && c.run.status.Running?
    requires c.run.resumptions == 2
    requires done == MarkQuota(c.run.(resumptions := 3, usage := Accumulate(c.run.usage, last))).(status := Completed)
    ensures Proceed(c, Reply(last, NoCalls, true)) == Ends(done)
    ensures Finish(done).status == Completed && Finish(done).usedTokens == m && Finish(done).maxTokens == m
    ensures Finish(done).id == c.run.id
  {
  }
}
