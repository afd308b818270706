/** The runtime object behind the table of delegated agents: each method is the code between
    two waits, and keeps the table valid. */
module AgentRuntime {
  import opened RunTable
  import opened RunOutcomes

  class Runtime {
    const limits: Limits
    /** Active runs, each with the point its task is suspended at. */
    var active: map<Id, Active>
    var runs: seq<Run>
    /** The lines of the run store. */
    var recorded: seq<Run>
    ghost var started: set<Id>

    ghost function State(): Table
      reads this
    {
      Table(active, runs, recorded, started)
    }

    constructor (limits: Limits)
      ensures this.limits == limits && State() == EMPTY && Valid(limits, State())
    {
      this.limits := limits;
      active, runs, recorded, started := map[], [], [], {};
      new;
      TableIsAlwaysValid(limits, [], 0);
    }

    method MarkTokenQuotaIfExceeded(run: Run) returns (marked: Run, exceeded: bool)
      ensures marked == MarkQuota(run) && exceeded == (Used(run.usage) > run.maxTokens)
      ensures marked.overQuota == exceeded && (exceeded ==> marked.status.QuotaExceeded?)
      ensures (!exceeded ==> marked.status == run.status)
    {
      var used := Used(run.usage);
      exceeded := used > run.maxTokens;
      marked := run.(usedTokens := used, overQuota := exceeded);
      if exceeded {
        marked := marked.(status := QuotaExceeded);
      }
    }

    method RecordRun(run: Run)
      modifies this`runs, this`recorded
      ensures State() == Record(limits, old(State()), run)
    {
      var finished := Finish(run);
      runs := runs + [finished];
      if |runs| > limits.history {
        runs := runs[|runs| - limits.history..];
      }
      recorded := recorded + [finished];
    }

    /** A run up to its first wait. */
    method Start(id: Id, requested: int, wantsSchema: bool)
      requires Valid(limits, State()) && id !in started
      modifies this
      ensures State() == BeginRun(limits, old(State()), id, requested, wantsSchema)
      ensures Valid(limits, State())
    {
      BeginKeeps(limits, State(), id, requested, wantsSchema);
      var run := NewRun(limits, id, requested);
      started := started + {id};
      if !limits.initialized {
        RecordRun(run.(status := Failed));
      } else if |active| >= limits.maxConcurrent {
        RecordRun(run.(status := QuotaExceeded));
      } else {
        active := active[id := Active(run.(calls := 1), FirstReply, wantsSchema)];
      }
    }

    /** A run leaves the table, whatever ended it. */
    method End(id: Id, run: Run)
      modifies this`active, this`runs, this`recorded
      ensures State() == Record(limits, old(State()).(active := old(active) - {id}), run)
    {
      active := active - {id};
      RecordRun(run);
    }

    /** A run from one wait to the next, or to its end. */
    method Continue(id: Id, e: Resumption)
      requires Valid(limits, State()) && id in active && Enabled(active[id], e)
      modifies this
      ensures State() == ResumeRun(limits, old(State()), id, e)
      ensures RecordedAsIs(old(State()), State(), id, e)
      ensures Valid(limits, State())
    {
      ghost var before := State();
      var a := active[id];
      var run := a.run.(resumptions := a.run.resumptions + 1);
      match e {
        case Cancel => End(id, run.(status := Cancelled));
        case ToolsDone => active := active[id := Active(run.(calls := run.calls + 1), FinalReply, a.wantsSchema)];
        case Reply(usage, need, matches) => Read(id, a.(run := run.(usage := Accumulate(run.usage, usage))), need,
            matches);
        case Timeout =>
          if a.phase.SchemaReply? {
            Complete(id, run);
          } else {
            End(id, run.(status := TimedOut));
          }
        case Fault =>
          if a.phase.SchemaReply? {
            Complete(id, run);
          } else {
            End(id, run.(status := Failed));
          }
      }
      assert State() == ResumeRun(limits, before, id, e);
      ResumeRecords(limits, before, id, e);
    }

    /** The last quota check of a run that has its answer. */
    method Complete(id: Id, run: Run)
      modifies this`active, this`runs, this`recorded
      ensures Conclude(run).Ends?
      ensures State() == Record(limits, old(State()).(active := old(active) - {id}), Conclude(run).run)
    {
      var marked, exceeded := MarkTokenQuotaIfExceeded(run);
      if exceeded {
        End(id, marked);
      } else {
        End(id, marked.(status := Completed));
      }
    }

    method Read(id: Id, a: Active, need: ToolNeed, matches: bool)
      requires id in active
      modifies this`active, this`runs, this`recorded
      ensures match OnReply(a, need, matches)
        case Waits(b) => State() == old(State()).(active := old(active)[id := b])
        case Ends(r) => State() == Record(limits, old(State()).(active := old(active) - {id}), r)
    {
      if a.phase.SchemaReply? {
        Complete(id, a.run);
        return;
      }
      var marked, exceeded := MarkTokenQuotaIfExceeded(a.run);
      var again := marked.(calls := marked.calls + 1);
      if exceeded {
        End(id, marked);
      } else if a.phase.FirstReply? && need.AllDenied? {
        active := active[id := Active(again, FinalReply, a.wantsSchema)];
      } else if a.phase.FirstReply? && need.SomeRun? {
        active := active[id := Active(marked, Tools, a.wantsSchema)];
      } else if a.wantsSchema && !matches {
        active := active[id := Active(again, SchemaReply, a.wantsSchema)];
      } else {
        Complete(id, marked);
      }
    }

    /** Asks every active run to stop; their tasks end when they are next resumed. */
    method CancelAll() returns (count: nat)
      requires Valid(limits, State())
      modifies this`active
      ensures State() == StopAll(old(State())) && count == |old(active)|
      ensures Valid(limits, State())
    {
      StopKeeps(limits, State());
      count := |active|;
      var todo := active.Keys;
      ghost var before := active;
      while todo != {}
        invariant todo <= before.Keys == active.Keys
        invariant forall id | id in before :: active[id] == if id in todo then before[id] else Stop(before[id])
      {
        var id :| id in todo;
        active := active[id := Stop(active[id])];
        todo := todo - {id};
      }
      assert active == StopAll(old(State())).active;
    }
  }
}
