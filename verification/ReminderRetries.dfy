/** What the runner makes of one reminder, and how often it tries: a delivery that fails is tried
    again after the delay, until the attempts are used up. */
module ReminderRetries {
  import opened Options
  import opened Reminder

  // ---- One step ---------------------------------------------------------------------

  /** Only this reminder is touched, and the runner goes on with the next one. */
  predicate GoesOn(w: World, x: World, id: Id, queue: seq<Ticket>) {
    && id in x.store && x.store.Keys == w.store.Keys && x.store - {id} == w.store - {id}
    && x.changed && x.runner.Scanning? && x.runner.queue == queue
  }

  /** A delivery that succeeds completes the reminder. One that fails is scheduled again, after the
      delay, exactly while attempts are left; then the reminder fails, due when it was due. */
  lemma {:induction false} SettleOutcome(c: Config, w: World, succeeded: bool)
    requires w.runner.Submitting? && w.runner.ticket.id in w.store
    ensures var t, x := w.runner.ticket, Next(c, w, Settle(succeeded));
      var before, after := w.store[t.id], x.store[t.id];
      && GoesOn(w, x, t.id, w.runner.queue)
      && after.attempts == before.attempts && after.submissions == before.submissions && after.caught == before.caught
      && (after.status.Completed? <==> succeeded)
      && (after.status.Scheduled? <==> !succeeded && t.attempts + 1 < c.maxAttempts)
      && (after.status.Failed? <==> !succeeded && t.attempts + 1 >= c.maxAttempts)
      && after.due == if succeeded then before.due
                      else if t.attempts + 1 < c.maxAttempts then w.runner.now + c.retryDelay
                      else t.due
  {
  }

  /** A due reminder is given up exactly when it is overdue beyond the limit, if there is one;
      otherwise its delivery starts, as one more attempt. */
  lemma {:induction false} FireOutcome(c: Config, w: World)
    requires w.runner.Scanning? && w.runner.queue != [] && w.runner.queue[0].id in w.store
    ensures var t, rest, x := w.runner.queue[0], w.runner.queue[1..], Next(c, w, FireNext);
      var before, after := w.store[t.id], x.store[t.id];
      && x.store.Keys == w.store.Keys && x.store - {t.id} == w.store - {t.id} && x.changed
      && if c.maxOverdue != 0.0 && w.runner.now - t.due > c.maxOverdue then
           after == before.(status := Failed) && x.runner == Scanning(w.runner.now, rest)
         else
           && after == before.(status := Firing, attempts := t.attempts + 1, submissions := before.submissions + 1)
           && x.runner == Submitting(w.runner.now, t, rest)
  {
  }

  /** The runner sleeps until the next due time, but at least a twentieth of a second, and at most
      an hour, which is also how long it sleeps when nothing is scheduled. */
  lemma {:induction false} SleepOutcome(c: Config, w: World, now: real, delay: Option<real>)
    requires w.runner.Scanning? && w.runner.queue == [] && IsNextDelay(w.store, now, delay)
    ensures var x := Next(c, w, Sleep(now, delay));
      && x.store == w.store && !x.changed && x.runner.Sleeping? && x.runner.since == now
      && (delay.None? || delay.value >= 3600.0 ==> x.runner.timeout == 3600.0)
      && (delay.Some? && 0.05 <= delay.value <= 3600.0 ==> x.runner.timeout == delay.value)
      && (delay.Some? && delay.value <= 0.05 ==> x.runner.timeout == 0.05)
  {
  }

  /** A new reminder is scheduled for its time, with no attempt made; whoever waits is told. */
  lemma {:induction false} CreateOutcome(c: Config, w: World, id: Id, due: real)
    requires id !in w.store
    ensures var x := Next(c, w, Create(id, due));
      && x.store == w.store[id := Entry(Scheduled, due, 0, 0, 0)] && x.changed && x.runner == w.runner
  {
  }

  /** Cancelling marks a reminder that is not completed, and nothing else. */
  lemma {:induction false} CancelOutcome(c: Config, w: World, id: Id)
    ensures var x := Next(c, w, Cancel(id));
      if id in w.store && !w.store[id].status.Completed? && !w.store[id].status.Cancelled? then
        x.store == w.store[id := w.store[id].(status := Cancelled)] && x.changed && x.runner == w.runner
      else x == w
  {
  }

  // ---- All runs ---------------------------------------------------------------------

  /** A reminder that has failed has used up its attempts. */
  ghost predicate Exhausted(c: Config, store: Store) {
    forall id | id in store && store[id].status.Failed? :: store[id].attempts >= c.maxAttempts
  }

  /** Without a limit on how long a reminder may be overdue, no reminder fails before its attempts
      are used up, in any run, through failures, cancellations and restarts. */
  lemma {:induction false} FailedMeansExhausted(c: Config, steps: seq<Step>, n: nat)
    requires n <= |steps| && c.maxAttempts > 0 && c.maxOverdue == 0.0
    ensures Exhausted(c, Run(c, EMPTY, steps, n).store)
  {
    if n > 0 {
      FailedMeansExhausted(c, steps, n - 1);
      AlwaysValid(c, steps, n - 1);
      StaysExhausted(c, Run(c, EMPTY, steps, n - 1), steps[n - 1]);
    }
  }

  lemma {:induction false} StaysExhausted(c: Config, w: World, s: Step)
    requires Valid(c, w) && c.maxAttempts > 0 && c.maxOverdue == 0.0 && Exhausted(c, w.store)
    ensures Exhausted(c, Next(c, w, s).store)
  {
    if s.FireNext? && w.runner.Scanning? && w.runner.queue != [] {
      assert w.runner.queue[0] in w.runner.queue;
    }
  }

  // ---- A reminder no one can deliver ------------------------------------------------

  /** One look, one failed delivery, and a sleep until the next try. */
  function Try(id: Id, now: real, delay: Option<real>): seq<Step> {
    [Scan(now, [id]), FireNext, Settle(false), Sleep(now, delay), Wake]
  }

  function Waiting(id: Id, due: real, attempts: nat, changed: bool): World {
    World(map[id := Entry(Scheduled, due, attempts, attempts, 0)], changed, Idle)
  }

  function Outcome(c: Config, id: Id, now: real, attempts: nat): World {
    if attempts + 1 < c.maxAttempts then Waiting(id, now + c.retryDelay, attempts + 1, false)
    else World(map[id := Entry(Failed, now, attempts + 1, attempts + 1, 0)], false, Idle)
  }

  function DelayAfter(c: Config, attempts: nat): Option<real> {
    if attempts + 1 < c.maxAttempts then Some(c.retryDelay) else None
  }

  lemma {:induction false} FailedDelivery(c: Config, id: Id, now: real, attempts: nat, changed: bool, more: seq<Step>)
    requires c.maxOverdue >= 0.0
    ensures var w, steps := Waiting(id, now, attempts, changed), [Scan(now, [id]), FireNext, Settle(false)] + more;
      Run(c, w, steps, 3) == World(Outcome(c, id, now, attempts).store, true, Scanning(now, []))
  {
    var w, steps := Waiting(id, now, attempts, changed), [Scan(now, [id]), FireNext, Settle(false)] + more;
    var t := Ticket(id, now, attempts);
    assert Run(c, w, steps, 0) == w;
    assert ListsDue(w.store, now, [id]) && Tickets(w.store, [id]) == [t];
    assert Run(c, w, steps, 1) == w.(runner := Scanning(now, [t]));
    assert [t][1..] == [];
    assert Run(c, w, steps, 2)
        == World(map[id := Entry(Firing, now, attempts + 1, attempts + 1, 0)], true, Submitting(now, t, []));
  }

  lemma {:induction false} SleepAndWake(c: Config, w: World, steps: seq<Step>, n: nat, now: real, delay: Option<real>)
    requires |steps| == n + 2 && steps[n] == Sleep(now, delay) && steps[n + 1] == Wake
    requires var x := Run(c, w, steps, n);
      x.runner == Scanning(now, []) && IsNextDelay(x.store, now, delay)
    ensures Run(c, w, steps, n + 2) == World(Run(c, w, steps, n).store, false, Idle)
  {
    var x := Run(c, w, steps, n);
    assert Run(c, w, steps, n + 1) == World(x.store, false, Sleeping(now, Timeout(delay)));
  }

  lemma {:induction false} OneTry(c: Config, id: Id, now: real, attempts: nat, changed: bool)
    requires c.retryDelay >= 0.0 && c.maxOverdue >= 0.0
    ensures Run(c, Waiting(id, now, attempts, changed), Try(id, now, DelayAfter(c, attempts)), 5)
         == Outcome(c, id, now, attempts)
  {
    var delay := DelayAfter(c, attempts);
    var steps := Try(id, now, delay);
    assert steps == [Scan(now, [id]), FireNext, Settle(false)] + [Sleep(now, delay), Wake];
    FailedDelivery(c, id, now, attempts, changed, [Sleep(now, delay), Wake]);
    assert id in Outcome(c, id, now, attempts).store;
    SleepAndWake(c, Waiting(id, now, attempts, changed), steps, 3, now, delay);
  }

  /** As many tries as are left after this many attempts, each as soon as it is due. */
  function Tries(c: Config, id: Id, now: real, attempts: nat): seq<Step>
    decreases c.maxAttempts - attempts
  {
    if attempts >= c.maxAttempts then []
    else Try(id, now, DelayAfter(c, attempts)) + Tries(c, id, now + c.retryDelay, attempts + 1)
  }

  lemma {:induction false} RunSplits(c: Config, w: World, a: seq<Step>, b: seq<Step>, n: nat)
    requires n <= |b|
    ensures Run(c, w, a + b, |a| + n) == Run(c, Run(c, w, a, |a|), b, n)
  {
    if n > 0 {
      RunSplits(c, w, a, b, n - 1);
      assert (a + b)[|a| + n - 1] == b[n - 1];
    } else {
      RunPrefix(c, w, a, b, |a|);
    }
  }

  lemma {:induction false} RunPrefix(c: Config, w: World, a: seq<Step>, b: seq<Step>, n: nat)
    requires n <= |a|
    ensures Run(c, w, a + b, n) == Run(c, w, a, n)
  {
    if n > 0 {
      RunPrefix(c, w, a, b, n - 1);
      assert (a + b)[n - 1] == a[n - 1];
    }
  }

  lemma {:induction false} TriesExhaust(c: Config, id: Id, now: real, attempts: nat, changed: bool) returns (due: real)
    requires c.retryDelay >= 0.0 && c.maxOverdue >= 0.0 && attempts < c.maxAttempts
    ensures var steps := Tries(c, id, now, attempts);
      Run(c, Waiting(id, now, attempts, changed), steps, |steps|)
        == World(map[id := Entry(Failed, due, c.maxAttempts, c.maxAttempts, 0)], false, Idle)
    decreases c.maxAttempts - attempts
  {
    var first, rest := Try(id, now, DelayAfter(c, attempts)), Tries(c, id, now + c.retryDelay, attempts + 1);
    OneTry(c, id, now, attempts, changed);
    RunSplits(c, Waiting(id, now, attempts, changed), first, rest, |rest|);
    if attempts + 1 < c.maxAttempts {
      due := TriesExhaust(c, id, now + c.retryDelay, attempts + 1, false);
    } else {
      due := now;
    }
  }

  /** A reminder whose every delivery fails is submitted exactly as often as attempts are allowed,
      and then has failed. */
  lemma {:induction false} EveryAttemptIsMade(c: Config, id: Id)
    requires c.retryDelay >= 0.0 && c.maxOverdue >= 0.0 && c.maxAttempts > 0
    ensures var steps := [Create(id, 0.0)] + Tries(c, id, 0.0, 0);
      var store := Run(c, EMPTY, steps, |steps|).store;
      && (forall s | s in steps && s.Settle? :: !s.succeeded)
      && id in store && store[id].status == Failed && store[id].submissions == c.maxAttempts
  {
    var tries := Tries(c, id, 0.0, 0);
    var steps := [Create(id, 0.0)] + tries;
    RunSplits(c, EMPTY, [Create(id, 0.0)], tries, |tries|);
    assert Run(c, EMPTY, [Create(id, 0.0)], 0) == EMPTY;
    assert Run(c, EMPTY, [Create(id, 0.0)], 1) == Waiting(id, 0.0, 0, true);
    var due := TriesExhaust(c, id, 0.0, 0, true);
    TriesFail(c, id, 0.0, 0);
  }

  lemma {:induction false} TriesFail(c: Config, id: Id, now: real, attempts: nat)
    ensures forall s | s in Tries(c, id, now, attempts) && s.Settle? :: !s.succeeded
    decreases c.maxAttempts - attempts
  {
    if attempts < c.maxAttempts {
      TriesFail(c, id, now + c.retryDelay, attempts + 1);
    }
  }
}
