/** The reminder repository and its runner as objects; each method is one step of the reminder
    model. */
module ReminderRunner {
  import opened Options
  import opened Reminder

  lemma {:induction false} ListsOneMore(store: Store, id: Id, e: Entry, now: real, order: seq<Id>)
    requires ListsDue(store, now, order) && id !in store
    ensures ListsDue(store[id := e], now, if IsDue(e, now) then order + [id] else order)
  {
    var next, longer := store[id := e], order + [id];
    assert forall k | k in longer :: k in order || k == id;
    assert forall k | k in order :: k in longer && k in store;
    assert longer[|order|] == id;
  }

  class ReminderRepository {
    var reminders: Store
    /** The event the runner waits for. */
    var changed: bool

    /** Opening the repository schedules again what a stopped run left firing. */
    constructor (stored: Store)
      ensures reminders == (map id | id in stored :: Recover(stored[id])) && !changed
      ensures forall id | id in stored :: id in reminders && !reminders[id].status.Firing?
      ensures forall id | id in stored && !stored[id].status.Firing? :: reminders[id] == stored[id]
    {
      changed := false;
      reminders := map id | id in stored :: Recover(stored[id]);
    }

    method Create(id: Id, due: real)
      requires id !in reminders
      modifies this
      ensures reminders == old(reminders)[id := Entry(Scheduled, due, 0, 0, 0)] && changed
    {
      reminders := reminders[id := Entry(Scheduled, due, 0, 0, 0)];
      changed := true;
    }

    method Cancel(id: Id) returns (found: bool)
      modifies this
      ensures found == (id in reminders)
      ensures var live :=
          id in old(reminders) && !old(reminders)[id].status.Completed? && !old(reminders)[id].status.Cancelled?;
        && reminders == (if live then Mark(old(reminders), id, Cancelled) else old(reminders))
        && changed == (live || old(changed))
    {
      found := id in reminders;
      if found && !reminders[id].status.Completed? && !reminders[id].status.Cancelled? {
        reminders := Mark(reminders, id, Cancelled);
        changed := true;
      }
    }

    method Put(id: Id, e: Entry)
      requires id in reminders
      modifies this
      ensures reminders == old(reminders)[id := e] && changed
    {
      reminders := reminders[id := e];
      changed := true;
    }

    /** The ids of the due reminders, each once. */
    method Due(now: real) returns (order: seq<Id>)
      ensures ListsDue(reminders, now, order)
    {
      order := [];
      var todo := reminders.Keys;
      while todo != {}
        invariant todo <= reminders.Keys
        invariant ListsDue(map id | id in reminders && id !in todo :: reminders[id], now, order)
      {
        var id :| id in todo;
        ghost var before := map k | k in reminders && k !in todo :: reminders[k];
        ListsOneMore(before, id, reminders[id], now, order);
        if IsDue(reminders[id], now) {
          order := order + [id];
        }
        todo := todo - {id};
        ghost var after := map k | k in reminders && k !in todo :: reminders[k];
        assert after == before[id := reminders[id]];
      }
      assert (map id | id in reminders && id !in todo :: reminders[id]) == reminders;
    }

    method NextDueDelay(now: real) returns (delay: Option<real>)
      ensures IsNextDelay(reminders, now, delay)
    {
      delay := None;
      var todo := reminders.Keys;
      while todo != {}
        invariant todo <= reminders.Keys
        invariant IsNextDelay(map id | id in reminders && id !in todo :: reminders[id], now, delay)
      {
        var id :| id in todo;
        var e := reminders[id];
        ghost var before := map k | k in reminders && k !in todo :: reminders[k];
        if e.status.Scheduled? && (delay.None? || Ahead(e, now) < delay.value) {
          delay := Some(Ahead(e, now));
        }
        todo := todo - {id};
        ghost var after := map k | k in reminders && k !in todo :: reminders[k];
        assert after == before[id := e];
      }
      assert (map id | id in reminders && id !in todo :: reminders[id]) == reminders;
    }
  }

  class ReminderRunner {
    const config: Config
    const repository: ReminderRepository
    var state: Runner

    ghost function Everything(): World
      reads this, repository
    {
      World(repository.reminders, repository.changed, state)
    }

    constructor (config: Config, repository: ReminderRepository)
      ensures this.config == config && this.repository == repository && state == Idle
    {
      this.config, this.repository, state := config, repository, Idle;
    }

    method ReadDue(now: real) returns (ghost order: seq<Id>)
      requires state.Idle? && Valid(config, Everything()) && config.maxAttempts > 0
      modifies this
      ensures Everything() == Next(config, old(Everything()), Scan(now, order)) && state.Scanning?
      ensures Valid(config, Everything())
    {
      ghost var before := Everything();
      var due := repository.Due(now);
      order := due;
      state := Scanning(now, Tickets(repository.reminders, due));
      NextKeeps(config, before, Scan(now, order));
    }

    /** Fires the next due reminder, or gives it up when it is too late. */
    method FireNextDue()
      requires state.Scanning? && state.queue != [] && Valid(config, Everything()) && config.maxAttempts > 0
      modifies this, repository
      ensures Everything() == Next(config, old(Everything()), FireNext)
      ensures Valid(config, Everything())
    {
      NextKeeps(config, Everything(), FireNext);
      var now, t, rest := state.now, state.queue[0], state.queue[1..];
      assert t in state.queue;
      var e := repository.reminders[t.id];
      if TooLate(config, t, now) {
        repository.Put(t.id, e.(status := Failed));
        state := Scanning(now, rest);
      } else {
        repository.Put(t.id, Fire(e, t.attempts + 1));
        state := Submitting(now, t, rest);
      }
    }

    /** The submission has ended. */
    method SettleSubmission(succeeded: bool)
      requires state.Submitting? && Valid(config, Everything()) && config.maxAttempts > 0
      modifies this, repository
      ensures Everything() == Next(config, old(Everything()), Settle(succeeded))
      ensures old(state).ticket.id in repository.reminders
      ensures var t, after := old(state).ticket, repository.reminders[old(state).ticket.id];
        && (after.status.Completed? <==> succeeded)
        && (after.status.Scheduled? <==> !succeeded && t.attempts + 1 < config.maxAttempts)
        && (after.status.Failed? <==> !succeeded && t.attempts + 1 >= config.maxAttempts)
        && (after.status.Scheduled? ==> after.due == old(state).now + config.retryDelay)
      ensures Valid(config, Everything())
    {
      NextKeeps(config, Everything(), Settle(succeeded));
      var now, t, rest := state.now, state.ticket, state.queue;
      var e := repository.reminders[t.id];
      if succeeded {
        e := e.(status := Completed);
      } else if t.attempts + 1 >= config.maxAttempts {
        e := e.(status := Failed, due := t.due);
      } else {
        e := e.(status := Scheduled, due := now + config.retryDelay);
      }
      repository.Put(t.id, e);
      state := Scanning(now, rest);
    }

    /** Goes to sleep: the next due time is read and the event cleared without a break. */
    method WaitForChange(now: real) returns (delay: Option<real>)
      requires state.Scanning? && state.queue == [] && Valid(config, Everything()) && config.maxAttempts > 0
      modifies this, repository
      ensures Everything() == Next(config, old(Everything()), Sleep(now, delay)) && state.Sleeping?
      ensures !repository.changed
      ensures Valid(config, Everything())
    {
      ghost var before := Everything();
      delay := repository.NextDueDelay(now);
      repository.changed := false;
      state := Sleeping(now, Timeout(delay));
      NextKeeps(config, before, Sleep(now, delay));
    }
  }
}
