/** Reminders: a runner fires what is due, retries failed deliveries, sleeps until the next
    due time, and may be stopped at any point. One step is what happens under one hold of the
    repository's lock. */
module Reminder {
  import opened Options

  type Id = string

  datatype Status = Scheduled | Firing | Completed | Cancelled | Failed

  /** `submissions` and `caught` are kept for the record: how often delivery was started, and
      how many restarts found the reminder firing. */
  datatype Entry = Entry(status: Status, due: real, attempts: nat, submissions: nat, caught: nat)

  type Store = map<Id, Entry>

  /** A reminder as the runner read it when it looked for due ones. */
  datatype Ticket = Ticket(id: Id, due: real, attempts: nat)

  datatype Runner =
    | Idle
    | Scanning(now: real, queue: seq<Ticket>)
    | Submitting(now: real, ticket: Ticket, queue: seq<Ticket>)
    | Sleeping(since: real, timeout: real)

  datatype World = World(store: Store, changed: bool, runner: Runner)

  datatype Config = Config(maxOverdue: real, retryDelay: real, maxAttempts: nat)

  const SHORTEST_WAIT := 0.05
  const LONGEST_WAIT := 3600.0

  // ---- Steps ------------------------------------------------------------------------

  datatype Step =
    | Create(id: Id, due: real)
    | Cancel(id: Id)
    | Scan(now: real, order: seq<Id>)
    | FireNext
    | Settle(succeeded: bool)
    | Sleep(now: real, delay: Option<real>)
    | Wake
    | Relaunch
    | Restart

  function Mark(store: Store, id: Id, status: Status): Store {
    if id in store then store[id := store[id].(status := status)] else store
  }

  predicate IsDue(e: Entry, now: real) {
    e.status.Scheduled? && e.due <= now
  }

  /** `order` lists exactly the due reminders. */
  predicate ListsDue(store: Store, now: real, order: seq<Id>) {
    && (forall i, j :: 0 <= i < j < |order| ==> order[i] != order[j])
    && (forall id | id in order :: id in store && IsDue(store[id], now))
    && (forall id | id in store && IsDue(store[id], now) :: id in order)
  }

  function Tickets(store: Store, order: seq<Id>): (queue: seq<Ticket>)
    requires forall id | id in order :: id in store
    ensures |queue| == |order|
    ensures forall i :: 0 <= i < |order| ==> queue[i] == Ticket(order[i], store[order[i]].due, store[order[i]].attempts)
  {
    seq(|order|, i requires 0 <= i < |order| => Ticket(order[i], store[order[i]].due, store[order[i]].attempts))
  }

  function Ahead(e: Entry, now: real): real {
    if e.due > now then e.due - now else 0.0
  }

  /** `delay` is the time to the earliest scheduled reminder, none when there is none. */
  predicate IsNextDelay(store: Store, now: real, delay: Option<real>) {
    && (delay.None? ==> forall id | id in store :: !store[id].status.Scheduled?)
    && (delay.Some? ==>
         && (exists id | id in store :: store[id].status.Scheduled? && delay.value == Ahead(store[id], now))
         && (forall id | id in store :: store[id].status.Scheduled? ==> delay.value <= Ahead(store[id], now)))
  }

  function Timeout(delay: Option<real>): real {
    var wanted := if delay.Some? then delay.value else LONGEST_WAIT;
    var atLeast := if wanted > SHORTEST_WAIT then wanted else SHORTEST_WAIT;
    if atLeast < LONGEST_WAIT then atLeast else LONGEST_WAIT
  }

  predicate TooLate(c: Config, t: Ticket, now: real) {
    c.maxOverdue != 0.0 && now - t.due > c.maxOverdue
  }

  function Fire(e: Entry, attempts: nat): Entry {
    e.(status := Firing, attempts := attempts, submissions := e.submissions + 1)
  }

  function StartNext(c: Config, w: World, now: real, t: Ticket, rest: seq<Ticket>): World {
    if TooLate(c, t, now) then World(Mark(w.store, t.id, Failed), true, Scanning(now, rest))
    else if t.id !in w.store then w
    else World(w.store[t.id := Fire(w.store[t.id], t.attempts + 1)], true, Submitting(now, t, rest))
  }

  function SettleEntry(c: Config, e: Entry, t: Ticket, now: real, succeeded: bool): Entry {
    if succeeded then e.(status := Completed)
    else if t.attempts + 1 >= c.maxAttempts then e.(status := Failed, due := t.due)
    else e.(status := Scheduled, due := now + c.retryDelay)
  }

  function Recover(e: Entry): Entry {
    if e.status.Firing? then e.(status := Scheduled, caught := e.caught + 1) else e
  }

  /** Steps that cannot be taken leave everything as it is. */
  function Next(c: Config, w: World, s: Step): World {
    match s
    case Create(id, due) =>
      if id in w.store then w else w.(store := w.store[id := Entry(Scheduled, due, 0, 0, 0)], changed := true)
    case Cancel(id) =>
      if id !in w.store || w.store[id].status.Completed? || w.store[id].status.Cancelled? then w
      else w.(store := Mark(w.store, id, Cancelled), changed := true)
    case Scan(now, order) =>
      if w.runner.Idle? && ListsDue(w.store, now, order) then w.(runner := Scanning(now, Tickets(w.store, order)))
          else w
    case FireNext =>
      if w.runner.Scanning? && w.runner.queue != []
          then StartNext(c, w, w.runner.now, w.runner.queue[0], w.runner.queue[1..]) else w
    case Settle(succeeded) =>
      if w.runner.Submitting? && w.runner.ticket.id in w.store then
        var t := w.runner.ticket;
        World(w.store[t.id := SettleEntry(c, w.store[t.id], t, w.runner.now, succeeded)], true,
            Scanning(w.runner.now, w.runner.queue))
      else w
    case Sleep(now, delay) =>
      if w.runner.Scanning? && w.runner.queue == [] && IsNextDelay(w.store, now, delay)
      then w.(changed := false, runner := Sleeping(now, Timeout(delay)))
      else w
    case Wake => if w.runner.Sleeping? then w.(runner := Idle) else w
    case Relaunch => w.(runner := Idle)
    case Restart => World(map id | id in w.store :: Recover(w.store[id]), false, Idle)
  }

  /** The world after the first n steps. */
  function Run(c: Config, w: World, steps: seq<Step>, n: nat): World
    requires n <= |steps|
  {
    if n == 0 then w else Next(c, Run(c, w, steps, n - 1), steps[n - 1])
  }

  const EMPTY := World(map[], false, Idle)

  // ---- How often a reminder is submitted --------------------------------------------

  predicate MayFire(c: Config, e: Entry) {
    e.attempts + 1 <= c.maxAttempts + e.caught
  }

  predicate EntryBounded(c: Config, e: Entry) {
    && e.submissions == e.attempts
    && e.attempts <= c.maxAttempts + e.caught
    && (e.status.Scheduled? ==> MayFire(c, e))
  }

  ghost predicate StoreBounded(c: Config, store: Store) {
    forall id | id in store :: EntryBounded(c, store[id])
  }

  /** What the runner read is still what is stored, for every ticket it has not used yet; all
      of them are due. */
  ghost predicate QueueCurrent(c: Config, store: Store, now: real, queue: seq<Ticket>) {
    && (forall t | t in queue :: t.due <= now)
    && (forall i, j :: 0 <= i < j < |queue| ==> queue[i].id != queue[j].id)
    && (forall t | t in queue :: t.id in store && store[t.id].attempts == t.attempts && MayFire(c, store[t.id]))
  }

  ghost predicate RunnerCurrent(c: Config, w: World) {
    match w.runner
    case Scanning(now, queue) => QueueCurrent(c, w.store, now, queue)
    case Submitting(now, t, queue) =>
      && QueueCurrent(c, w.store, now, queue)
      && t.due <= now && !TooLate(c, t, now)
      && t.id in w.store && w.store[t.id].attempts == t.attempts + 1
      && forall u | u in queue :: u.id != t.id
    case _ => true
  }

  /** While the runner sleeps with no change reported, it wakes by every scheduled due time, or
      after the shortest wait where that is later. */
  ghost predicate WakesInTime(w: World) {
    w.runner.Sleeping? && !w.changed ==>
      forall id | id in w.store && w.store[id].status.Scheduled? ::
        w.runner.since + w.runner.timeout <= w.store[id].due || w.runner.timeout == SHORTEST_WAIT
  }

  predicate TimeoutInRange(w: World) {
    w.runner.Sleeping? ==> SHORTEST_WAIT <= w.runner.timeout <= LONGEST_WAIT
  }

  ghost predicate Valid(c: Config, w: World) {
    StoreBounded(c, w.store) && RunnerCurrent(c, w) && WakesInTime(w) && TimeoutInRange(w)
  }

  lemma {:induction false} FireKeeps(c: Config, w: World)
    requires Valid(c, w) && w.runner.Scanning? && w.runner.queue != []
    ensures Valid(c, Next(c, w, FireNext))
  {
    var t, rest := w.runner.queue[0], w.runner.queue[1..];
    assert t in w.runner.queue;
    assert forall u | u in rest :: u in w.runner.queue;
  }

  lemma {:induction false} ScanKeeps(c: Config, w: World, now: real, order: seq<Id>)
    requires Valid(c, w) && w.runner.Idle? && ListsDue(w.store, now, order)
    ensures Valid(c, Next(c, w, Scan(now, order)))
  {
    var queue := Tickets(w.store, order);
    forall t | t in queue
      ensures t.due <= now && t.id in w.store && w.store[t.id].attempts == t.attempts && MayFire(c, w.store[t.id])
    {
      var i :| 0 <= i < |queue| && queue[i] == t;
      assert order[i] in order;
    }
  }

  lemma {:induction false} SleepKeeps(c: Config, w: World, now: real, delay: Option<real>)
    requires Valid(c, w) && w.runner.Scanning? && w.runner.queue == [] && IsNextDelay(w.store, now, delay)
    ensures Valid(c, Next(c, w, Sleep(now, delay)))
  {
  }

  lemma {:induction false} NextKeeps(c: Config, w: World, s: Step)
    requires Valid(c, w) && c.maxAttempts > 0
    ensures Valid(c, Next(c, w, s))
  {
    match s
    case FireNext => if w.runner.Scanning? && w.runner.queue != [] { FireKeeps(c, w); }
    case Scan(now, order) => if w.runner.Idle? && ListsDue(w.store, now, order) { ScanKeeps(c, w, now, order); }
    case Sleep(now, delay) =>
      if w.runner.Scanning? && w.runner.queue == [] && IsNextDelay(w.store, now, delay) {
        SleepKeeps(c, w, now, delay);
      }
    case _ =>
  }

  /** In every run, through creations, cancellations, failures and restarts at any point: a
      reminder is submitted at most as often as attempts are allowed, plus once for each
      restart that found it firing; and no sleep outlasts a due time unnoticed. */
  lemma {:induction false} AlwaysValid(c: Config, steps: seq<Step>, n: nat)
    requires n <= |steps| && c.maxAttempts > 0
    ensures Valid(c, Run(c, EMPTY, steps, n))
    ensures forall id | id in Run(c, EMPTY, steps, n).store ::
      Run(c, EMPTY, steps, n).store[id].submissions <= c.maxAttempts + Run(c, EMPTY, steps, n).store[id].caught
  {
    if n > 0 {
      AlwaysValid(c, steps, n - 1);
      NextKeeps(c, Run(c, EMPTY, steps, n - 1), steps[n - 1]);
    }
  }

  /** A submission under way is of a reminder that was due when it was started, and not longer
      overdue than permitted. */
  lemma {:induction false} SubmittedInWindow(c: Config, steps: seq<Step>, n: nat)
    requires n <= |steps| && c.maxAttempts > 0
    ensures var runner := Run(c, EMPTY, steps, n).runner;
      runner.Submitting? ==>
        && runner.ticket.due <= runner.now
        && (c.maxOverdue != 0.0 ==> runner.now <= runner.ticket.due + c.maxOverdue)
  {
    AlwaysValid(c, steps, n);
  }

  // ---- Restarts ---------------------------------------------------------------------

  /** A restart loses nothing: what was firing is scheduled again, for the time it was due and
      with the attempts it has had, so that any later look lists it; all else is unchanged. */
  lemma {:induction false} RestartSchedulesAgain(c: Config, w: World, id: Id, now: real, order: seq<Id>)
    requires id in w.store
    requires ListsDue(Next(c, w, Restart).store, now, order)
    ensures var e, f := w.store[id], Next(c, w, Restart).store[id];
      && f.due == e.due && f.attempts == e.attempts && f.submissions == e.submissions
      && f.status == (if e.status.Firing? then Scheduled else e.status)
      && (id in order <==> (e.status.Scheduled? || e.status.Firing?) && e.due <= now)
  {
  }

  predicate IsFiring(w: World, id: Id) {
    id in w.store && w.store[id].status.Firing?
  }

  lemma {:induction false} FiringStep(c: Config, w: World, s: Step, id: Id)
    requires IsFiring(w, id) && !InFlight(w, id) && s != Restart && s != Cancel(id)
    ensures IsFiring(Next(c, w, s), id) && !InFlight(Next(c, w, s), id)
  {
    if s.FireNext? && w.runner.Scanning? && w.runner.queue != [] {
      assert w.runner.queue[0] in w.runner.queue;
    }
  }

  /** A runner launched again beside the same repository is no such restart: what its
      predecessor left firing stays so, however long it runs, until it is cancelled or the
      repository is opened anew. */
  lemma {:induction false} RelaunchLeavesFiring(c: Config, w: World, steps: seq<Step>, n: nat, id: Id)
    requires n <= |steps| && IsFiring(w, id)
    requires forall i :: 0 <= i < |steps| ==> steps[i] != Restart && steps[i] != Cancel(id)
    ensures var x := Run(c, Next(c, w, Relaunch), steps, n);
      IsFiring(x, id) && !InFlight(x, id)
  {
    if n > 0 {
      RelaunchLeavesFiring(c, w, steps, n - 1, id);
      FiringStep(c, Run(c, Next(c, w, Relaunch), steps, n - 1), steps[n - 1], id);
    }
  }

  // ---- Cancelling -------------------------------------------------------------------

  /** The runner has read this reminder as due and not finished with it. */
  predicate InFlight(w: World, id: Id) {
    match w.runner
    case Scanning(_, queue) => exists t | t in queue :: t.id == id
    case Submitting(_, t, queue) => t.id == id || exists u | u in queue :: u.id == id
    case _ => false
  }

  predicate IsCancelled(w: World, id: Id) {
    id in w.store && w.store[id].status.Cancelled?
  }

  lemma {:induction false} CancelledStays(c: Config, w: World, s: Step, id: Id)
    requires IsCancelled(w, id) && !InFlight(w, id)
    ensures var x := Next(c, w, s);
      IsCancelled(x, id) && !InFlight(x, id) && x.store[id].submissions == w.store[id].submissions
  {
    match s
    case Scan(now, order) =>
    case FireNext =>
      if w.runner.Scanning? && w.runner.queue != [] {
        assert w.runner.queue[0] in w.runner.queue;
      }
    case _ =>
  }

  lemma {:induction false} CancelledForGood(c: Config, w: World, steps: seq<Step>, n: nat, id: Id)
    requires n <= |steps| && IsCancelled(w, id) && !InFlight(w, id)
    ensures var x := Run(c, w, steps, n);
      IsCancelled(x, id) && !InFlight(x, id) && x.store[id].submissions == w.store[id].submissions
  {
    if n > 0 {
      CancelledForGood(c, w, steps, n - 1, id);
      CancelledStays(c, Run(c, w, steps, n - 1), steps[n - 1], id);
    }
  }

  lemma {:induction false} RunFirst(c: Config, w: World, s: Step, steps: seq<Step>, n: nat)
    requires n <= |steps|
    ensures Run(c, w, [s] + steps, n + 1) == Run(c, Next(c, w, s), steps, n)
  {
    if n > 0 {
      RunFirst(c, w, s, steps, n - 1);
      assert ([s] + steps)[n] == steps[n - 1];
    } else {
      assert Run(c, w, [s] + steps, 0) == w;
    }
  }

  function Work(r: Runner): nat {
    match r
    case Scanning(_, queue) => 2 * |queue|
    case Submitting(_, _, queue) => 2 * |queue| + 1
    case _ => 0
  }

  /** The step that moves the runner on. */
  function Onward(w: World): Step {
    if w.runner.Submitting? then Settle(true) else FireNext
  }

  lemma {:induction false} OnwardMoves(c: Config, w: World, id: Id)
    requires RunnerCurrent(c, w) && IsCancelled(w, id) && InFlight(w, id)
    ensures var x := Next(c, w, Onward(w));
      && (IsCancelled(x, id) ==> InFlight(x, id) && Work(x.runner) < Work(w.runner))
  {
    if w.runner.Scanning? {
      assert w.runner.queue[0] in w.runner.queue;
      var u :| u in w.runner.queue && u.id == id;
      assert u != w.runner.queue[0] ==> u in w.runner.queue[1..];
    }
  }

  /** A reminder already read as due goes out although it is cancelled meanwhile. */
  lemma {:induction false} InFlightEscapes(c: Config, w: World, id: Id) returns (steps: seq<Step>)
    requires c.maxAttempts > 0 && Valid(c, w) && IsCancelled(w, id) && InFlight(w, id)
    ensures !IsCancelled(Run(c, w, steps, |steps|), id)
    decreases Work(w.runner)
  {
    var x := Next(c, w, Onward(w));
    OnwardMoves(c, w, id);
    NextKeeps(c, w, Onward(w));
    var rest := [];
    if IsCancelled(x, id) {
      rest := InFlightEscapes(c, x, id);
    } else {
      assert Run(c, x, rest, 0) == x;
    }
    steps := [Onward(w)] + rest;
    RunFirst(c, w, Onward(w), rest, |rest|);
  }

  ghost predicate StaysCancelled(c: Config, w: World, id: Id) {
    forall steps: seq<Step> :: IsCancelled(Run(c, w, steps, |steps|), id)
  }

  /** Cancelling a reminder takes effect for good exactly when the runner is not in the middle
      of it: marking looks at no previous status. */
  lemma {:induction false} CancelHoldsIff(c: Config, w: World, id: Id)
    requires c.maxAttempts > 0 && Valid(c, w) && IsCancelled(w, id)
    ensures StaysCancelled(c, w, id) <==> !InFlight(w, id)
  {
    if InFlight(w, id) {
      var steps := InFlightEscapes(c, w, id);
      assert !IsCancelled(Run(c, w, steps, |steps|), id);
    } else {
      forall steps: seq<Step>
        ensures IsCancelled(Run(c, w, steps, |steps|), id)
      {
        CancelledForGood(c, w, steps, |steps|, id);
      }
    }
  }

  /** The case is real: a reminder is created, read as due, cancelled, and then delivered. */
  lemma {:induction false} CancelledYetDelivered(c: Config, id: Id)
    requires c.maxOverdue >= 0.0
    ensures var steps := [Create(id, 0.0), Scan(0.0, [id]), Cancel(id), FireNext, Settle(true)];
      && IsCancelled(Run(c, EMPTY, steps, 3), id) && InFlight(Run(c, EMPTY, steps, 3), id)
      && id in Run(c, EMPTY, steps, 5).store
      && Run(c, EMPTY, steps, 5).store[id] == Entry(Completed, 0.0, 1, 1, 0)
  {
    var steps := [Create(id, 0.0), Scan(0.0, [id]), Cancel(id), FireNext, Settle(true)];
    var t := Ticket(id, 0.0, 0);
    assert Run(c, EMPTY, steps, 0) == EMPTY;
    var w1 := World(map[id := Entry(Scheduled, 0.0, 0, 0, 0)], true, Idle);
    assert Run(c, EMPTY, steps, 1) == w1;
    assert ListsDue(w1.store, 0.0, [id]) && Tickets(w1.store, [id]) == [t];
    assert Run(c, EMPTY, steps, 2) == w1.(runner := Scanning(0.0, [t]));
    var w3 := World(map[id := Entry(Cancelled, 0.0, 0, 0, 0)], true, Scanning(0.0, [t]));
    assert Run(c, EMPTY, steps, 3) == w3 && t in w3.runner.queue;
    assert [t][1..] == [];
    var w4 := World(map[id := Entry(Firing, 0.0, 1, 1, 0)], true, Submitting(0.0, t, []));
    assert Run(c, EMPTY, steps, 4) == w4;
  }
}
