/** What one step makes of a delegated run, and what its token usage adds up to. */
module RunOutcomes {
  import opened Options
  import opened RunTable

  /** The run has left the table and is recorded last, with this status. */
  ghost predicate EndedAs(t: Table, x: Table, id: Id, status: Status)
    requires id in t.active
  {
    && x.active == t.active - {id} && x.started == t.started
    && |x.recorded| == |t.recorded| + 1 && x.recorded[..|t.recorded|] == t.recorded
    && x.recorded[|t.recorded|].id == t.active[id].run.id && x.recorded[|t.recorded|].status == status
  }

  /** The run waits for something else, after that many more model calls. */
  ghost predicate NowWaits(t: Table, x: Table, id: Id, phase: Phase, calls: nat)
    requires id in t.active
  {
    && x.active.Keys == t.active.Keys && x.active - {id} == t.active - {id}
    && x.recorded == t.recorded && x.runs == t.runs
    && x.active[id].phase == phase && x.active[id].wantsSchema == t.active[id].wantsSchema
    && x.active[id].run.calls == t.active[id].run.calls + calls
    && x.active[id].run.maxTokens == t.active[id].run.maxTokens
  }

  /** A run that has its answer completes, unless it is over its quota. */
  function WithinQuota(usage: Usage, maxTokens: int): Status {
    if Used(usage) <= maxTokens then Completed else QuotaExceeded
  }

  /** A run that cannot start is recorded at once: as failed without a model, as over quota when
      the table is full. Any other run waits for its first reply. */
  lemma {:induction false} BeginOutcome(limits: Limits, t: Table, id: Id, requested: int, wantsSchema: bool)
    ensures var x := Next(limits, t, Begin(id, requested, wantsSchema));
      if limits.initialized && |t.active| < limits.maxConcurrent then
        && id in x.active && x.active - {id} == t.active - {id} && x.recorded == t.recorded
        && x.active[id].phase == FirstReply && x.active[id].wantsSchema == wantsSchema
        && x.active[id].run.id == id && x.active[id].run.calls == 1 && x.active[id].run.usage == NO_USAGE
      else
        && x.active == t.active && |x.recorded| == |t.recorded| + 1 && x.recorded[..|t.recorded|] == t.recorded
        && x.recorded[|t.recorded|].id == id && x.recorded[|t.recorded|].calls == 0
        && x.recorded[|t.recorded|].status == if limits.initialized then QuotaExceeded else Failed
  {
  }

  /** Outside another try at its schema, a run that is interrupted is recorded as just that. */
  ghost predicate RecordedAsIs(t: Table, x: Table, id: Id, e: Resumption)
    requires id in t.active
  {
    && (e.Cancel? ==> EndedAs(t, x, id, Cancelled))
    && (e.Timeout? && !t.active[id].phase.SchemaReply? ==> EndedAs(t, x, id, TimedOut))
    && (e.Fault? && !t.active[id].phase.SchemaReply? ==> EndedAs(t, x, id, Failed))
  }

  /** A run that is cancelled, times out or fails is recorded as just that; only while it waits for
      another try at its schema do a timeout and a fault complete it, as far as its quota allows. */
  lemma {:induction false} InterruptionOutcome(limits: Limits, t: Table, id: Id, e: Resumption)
    requires id in t.active && Enabled(t.active[id], e)
    ensures var a, x := t.active[id], Next(limits, t, Resume(id, e));
      && RecordedAsIs(t, x, id, e)
      && ((e.Timeout? || e.Fault?) && a.phase.SchemaReply? ==>
           EndedAs(t, x, id, WithinQuota(a.run.usage, a.run.maxTokens)))
  {
  }

  lemma {:induction false} ResumeRecords(limits: Limits, t: Table, id: Id, e: Resumption)
    requires Valid(limits, t) && id in t.active && Enabled(t.active[id], e)
    ensures Valid(limits, ResumeRun(limits, t, id, e)) && RecordedAsIs(t, ResumeRun(limits, t, id, e), id, e)
  {
    ResumeKeeps(limits, t, id, e);
    InterruptionOutcome(limits, t, id, e);
    assert ResumeRun(limits, t, id, e) == Next(limits, t, Resume(id, e));
  }

  /** Where a reply leads: over the quota it ends the run, and so it does after another try at the
      schema; a first reply leads on to its tools, or past them when all are denied; a text that
      misses its schema is asked for again; and any other text completes the run. */
  lemma {:induction false} ReplyOutcome(limits: Limits, t: Table, id: Id, usage: Usage, need: ToolNeed, matches: bool)
    requires id in t.active && Enabled(t.active[id], Reply(usage, need, matches))
    ensures var a, x := t.active[id], Next(limits, t, Resume(id, Reply(usage, need, matches)));
      var all := Accumulate(a.run.usage, usage);
      && (id in x.active ==> x.active[id].run.usage == all)
      && (id !in x.active ==> x.recorded != [] && x.recorded[|x.recorded| - 1].usage == all)
      && if a.phase.SchemaReply? || Used(all) > a.run.maxTokens then
           EndedAs(t, x, id, WithinQuota(all, a.run.maxTokens))
         else if a.phase.FirstReply? && need.SomeRun? then NowWaits(t, x, id, Tools, 0)
         else if a.phase.FirstReply? && need.AllDenied? then NowWaits(t, x, id, FinalReply, 1)
         else if a.wantsSchema && !matches then NowWaits(t, x, id, SchemaReply, 1)
         else EndedAs(t, x, id, Completed)
  {
  }

  /** When its tools are done, a run asks for its final reply. */
  lemma {:induction false} ToolsOutcome(limits: Limits, t: Table, id: Id)
    requires id in t.active && Enabled(t.active[id], ToolsDone)
    ensures var x := Next(limits, t, Resume(id, ToolsDone));
      NowWaits(t, x, id, FinalReply, 1) && x.active[id].run.usage == t.active[id].run.usage
  {
  }

  // ---- Over whole runs of the table -------------------------------------------------

  /** The history is the latest part of what was recorded. */
  lemma {:induction false} HistoryIsLatest(limits: Limits, steps: seq<Step>, n: nat)
    requires n <= |steps| && DistinctBegins(steps)
    ensures var t := Trace(limits, EMPTY, steps, n);
      var kept := if |t.recorded| < limits.history then |t.recorded| else limits.history;
      |t.runs| == kept && t.runs == t.recorded[|t.recorded| - kept..]
  {
    TableIsAlwaysValid(limits, steps, n);
  }

  /** The step is a reply to this run, which waits for one. */
  predicate IsHeard(t: Table, s: Step, id: Id) {
    s.Resume? && s.id == id && s.event.Reply? && id in t.active && Enabled(t.active[id], s.event)
  }

  /** What the replies to a run have reported, in the first n steps. */
  function Heard(limits: Limits, steps: seq<Step>, id: Id, n: nat): seq<Usage>
    requires n <= |steps|
  {
    if n == 0 then []
    else
      var before := Heard(limits, steps, id, n - 1);
      if IsHeard(Trace(limits, EMPTY, steps, n - 1), steps[n - 1], id) then before + [steps[n - 1].event.usage]
          else before
  }

  /** Every run's usage is the sum of these reports. */
  ghost predicate UsageIsHeard(t: Table, heard: Id -> seq<Usage>) {
    && (forall id | id in t.active :: t.active[id].run.usage == AccumulateAll(heard(id)))
    && (forall r | r in t.recorded :: r.usage == AccumulateAll(heard(r.id)))
  }

  lemma {:induction false} UnknownIsUnheard(limits: Limits, steps: seq<Step>, id: Id, n: nat)
    requires n <= |steps| && DistinctBegins(steps) && id !in Begun(steps, n)
    ensures Heard(limits, steps, id, n) == []
  {
    if n > 0 {
      UnknownIsUnheard(limits, steps, id, n - 1);
      TableIsAlwaysValid(limits, steps, n - 1);
      assert id !in Trace(limits, EMPTY, steps, n - 1).started;
    }
  }

  lemma {:induction false} OneMoreReport(heard: seq<Usage>, usage: Usage)
    ensures AccumulateAll(heard + [usage]) == Accumulate(AccumulateAll(heard), usage)
  {
    assert (heard + [usage])[..|heard|] == heard;
  }

  /** What a step does to usages: a reply adds its report to the run it reaches, a new run has
      none, and nothing else changes. */
  lemma {:induction false} StepHears(limits: Limits, t: Table, s: Step, heard: Id -> seq<Usage>, more: Id -> seq<Usage>)
    requires Valid(limits, t) && IsFresh(t, s) && UsageIsHeard(t, heard)
    requires forall id :: more(id) == if IsHeard(t, s, id) then heard(id) + [s.event.usage] else heard(id)
    requires s.Begin? ==> heard(s.id) == []
    ensures UsageIsHeard(Next(limits, t, s), more)
  {
    match s
    case Begin(id, requested, wantsSchema) => BeginHears(limits, t, s, heard);
    case Resume(id, e) => ResumeHears(limits, t, id, e, heard, more);
    case CancelAll =>
  }

  lemma {:induction false} BeginHears(limits: Limits, t: Table, s: Step, heard: Id -> seq<Usage>)
    requires s.Begin? && UsageIsHeard(t, heard) && heard(s.id) == []
    ensures UsageIsHeard(Next(limits, t, s), heard)
  {
  }

  lemma {:induction false} RecordedAreInactive(limits: Limits, t: Table, r: Run)
    requires Valid(limits, t) && r in t.recorded
    ensures r.id !in t.active
  {
    var i :| 0 <= i < |t.recorded| && t.recorded[i] == r;
    assert Ids(t.recorded)[i] == r.id;
  }

  /** A reply reaches an active run, so it changes nothing that is recorded. */
  lemma {:induction false} RecordsHear(limits: Limits, t: Table, id: Id, heard: Id -> seq<Usage>,
        more: Id -> seq<Usage>)
    requires Valid(limits, t) && UsageIsHeard(t, heard) && id in t.active
    requires forall k :: k != id ==> more(k) == heard(k)
    ensures forall r | r in t.recorded :: r.usage == AccumulateAll(more(r.id))
  {
    forall r | r in t.recorded
      ensures r.id != id
    {
      RecordedAreInactive(limits, t, r);
    }
  }

  lemma {:induction false} ProgressKeepsUsage(a: Active, e: Resumption)
    requires Enabled(a, e)
    ensures var all := if e.Reply? then Accumulate(a.run.usage, e.usage) else a.run.usage;
      match Proceed(a, e)
      case Waits(b) => b.run.usage == all
      case Ends(r) => Finish(r).usage == all && Finish(r).id == a.run.id
  {
  }

  lemma {:induction false} WaitsHear(t: Table, id: Id, b: Active, heard: Id -> seq<Usage>, more: Id -> seq<Usage>)
    requires UsageIsHeard(t, heard) && b.run.usage == AccumulateAll(more(id))
    requires forall k :: k != id ==> more(k) == heard(k)
    requires forall r | r in t.recorded :: r.usage == AccumulateAll(more(r.id))
    ensures UsageIsHeard(t.(active := t.active[id := b]), more)
  {
  }

  lemma {:induction false} EndsHear(limits: Limits, t: Table, id: Id, r: Run, heard: Id -> seq<Usage>,
        more: Id -> seq<Usage>)
    requires UsageIsHeard(t, heard) && Finish(r).id == id && Finish(r).usage == AccumulateAll(more(id))
    requires forall k :: k != id ==> more(k) == heard(k)
    requires forall r | r in t.recorded :: r.usage == AccumulateAll(more(r.id))
    ensures UsageIsHeard(Record(limits, t.(active := t.active - {id}), r), more)
  {
  }

  lemma {:induction false} ResumeHears(limits: Limits, t: Table, id: Id, e: Resumption, heard: Id -> seq<Usage>,
        more: Id -> seq<Usage>)
    requires Valid(limits, t) && UsageIsHeard(t, heard)
    requires forall k :: more(k) == if IsHeard(t, Resume(id, e), k) then heard(k) + [e.usage] else heard(k)
    ensures UsageIsHeard(Next(limits, t, Resume(id, e)), more)
  {
    if id in t.active && Enabled(t.active[id], e) {
      var a := t.active[id];
      if e.Reply? {
        OneMoreReport(heard(id), e.usage);
      }
      ProgressKeepsUsage(a, e);
      RecordsHear(limits, t, id, heard, more);
      match Proceed(a, e)
      case Waits(b) => WaitsHear(t, id, b, heard, more);
      case Ends(r) => EndsHear(limits, t, id, r, heard, more);
    }
  }

  function HeardBy(limits: Limits, steps: seq<Step>, n: nat): Id -> seq<Usage>
    requires n <= |steps|
  {
    (id: Id) => Heard(limits, steps, id, n)
  }

  lemma {:induction false} OneMoreStep(limits: Limits, steps: seq<Step>, n: nat, t: Table)
    requires n < |steps| && DistinctBegins(steps) && t == Trace(limits, EMPTY, steps, n)
    ensures Trace(limits, EMPTY, steps, n + 1) == Next(limits, t, steps[n])
    ensures Valid(limits, t) && IsFresh(t, steps[n])
    ensures steps[n].Begin? ==> Heard(limits, steps, steps[n].id, n) == []
  {
    TableIsAlwaysValid(limits, steps, n);
    assert StartsNew(steps, n);
    if steps[n].Begin? {
      UnknownIsUnheard(limits, steps, steps[n].id, n);
    }
  }

  lemma {:induction false} HeardGrows(limits: Limits, steps: seq<Step>, n: nat, t: Table)
    requires n < |steps| && t == Trace(limits, EMPTY, steps, n)
    ensures var heard, more := HeardBy(limits, steps, n), HeardBy(limits, steps, n + 1);
      forall id :: more(id) == if IsHeard(t, steps[n], id) then heard(id) + [steps[n].event.usage] else heard(id)
  {
  }

  lemma {:induction false} UsageStaysHeard(limits: Limits, steps: seq<Step>, n: nat, t: Table, heard: Id -> seq<Usage>,
        more: Id -> seq<Usage>)
    requires n < |steps| && DistinctBegins(steps) && t == Trace(limits, EMPTY, steps, n)
    requires heard == HeardBy(limits, steps, n) && more == HeardBy(limits, steps, n + 1) && UsageIsHeard(t, heard)
    ensures UsageIsHeard(Next(limits, t, steps[n]), more)
    ensures Trace(limits, EMPTY, steps, n + 1) == Next(limits, t, steps[n])
  {
    OneMoreStep(limits, steps, n, t);
    HeardGrows(limits, steps, n, t);
    StepHears(limits, t, steps[n], heard, more);
  }

  lemma {:induction false} HoldsThroughout(p: nat -> bool, n: nat)
    requires p(0) && forall k: nat {:trigger p(k)} :: k < n && p(k) ==> p(k + 1)
    ensures p(n)
  {
    if n > 0 {
      HoldsThroughout(p, n - 1);
      assert p(n - 1);
    }
  }

  ghost function UsageKnown(limits: Limits, steps: seq<Step>): nat -> bool {
    (k: nat) => k <= |steps| && UsageIsHeard(Trace(limits, EMPTY, steps, k), HeardBy(limits, steps, k))
  }

  /** Over every interleaving, the usage of a run is the sum of what the replies to it reported,
      while it is active and in its record. */
  lemma {:induction false} UsageIsAlwaysHeard(limits: Limits, steps: seq<Step>, n: nat)
    requires n <= |steps| && DistinctBegins(steps)
    ensures UsageIsHeard(Trace(limits, EMPTY, steps, n), HeardBy(limits, steps, n))
  {
    var p := UsageKnown(limits, steps);
    forall k: nat | k < n && p(k)
      ensures p(k + 1)
    {
      UsageStaysHeard(limits, steps, k, Trace(limits, EMPTY, steps, k), HeardBy(limits, steps, k),
          HeardBy(limits, steps, k + 1));
    }
    HoldsThroughout(p, n);
  }

  /** So every recorded run is charged what the replies to it used exactly when none or all of
      them reported totals, and else less. */
  lemma {:induction false} RecordedIsSpentIff(limits: Limits, steps: seq<Step>, n: nat, r: Run)
    requires n <= |steps| && DistinctBegins(steps) && r in Trace(limits, EMPTY, steps, n).recorded
    requires var replies := Heard(limits, steps, r.id, n); forall i :: 0 <= i < |replies| ==> NonNegative(replies[i])
    ensures var replies := Heard(limits, steps, r.id, n);
      && r.usedTokens <= Spent(replies)
      && (r.usedTokens == Spent(replies) <==> !SomeTotal(replies) || AllTotals(replies))
  {
    UsageIsAlwaysHeard(limits, steps, n);
    TableIsAlwaysValid(limits, steps, n);
    assert HeardBy(limits, steps, n)(r.id) == Heard(limits, steps, r.id, n);
    UsedIsSpentIff(Heard(limits, steps, r.id, n));
  }
}
