/** Durable submissions: a claim decides who runs a request, later claims of the same request
    replay its outcome. Every database operation is one step; steps of different callers
    interleave freely. */
module Ledger {
  import opened Options

  /** A request is known by where it comes from, who owns it, and its own id. */
  datatype Key = Key(scope: string, owner: string, requestId: string)

  datatype Status = Accepted | Running | Completed | Failed | Cancelled | Rejected

  /** The result of a submission. */
  datatype Outcome = Outcome(status: Status, kind: string, response: string, message: Option<string>, error: string)

  datatype RowStatus = Reported(status: Status) | Retryable | ConversationCompleted | DeliveryPending

  /** `payload` stands for the hash of everything the submission says. */
  datatype Row = Row(payload: string, status: RowStatus, kind: string, turnId: string, deliveryId: string,
                     response: string, message: Option<string>, error: string, attempts: nat, completedAt: int)

  type Rows = map<Key, Row>

  datatype ClaimKind = New | Resume | Cached | Active | Conflict

  predicate IsFinal(s: Status) {
    s.Completed? || s.Failed? || s.Cancelled? || s.Rejected?
  }

  /** The row needs no further work. */
  predicate IsSettled(s: RowStatus) {
    s.DeliveryPending? || (s.Reported? && IsFinal(s.status))
  }

  predicate IsInterruptible(s: RowStatus) {
    s == Reported(Accepted) || s == Reported(Running)
  }

  /** The outcome a stored row stands for. */
  function Replay(r: Row): Outcome {
    var status :=
      if r.status.ConversationCompleted? || r.status.DeliveryPending? then Completed
      else if r.status.Reported? && IsFinal(r.status.status) then r.status.status
      else Accepted;
    Outcome(status, r.kind, r.response, r.message, r.error)
  }

  // ---- Steps ------------------------------------------------------------------------

  datatype Step =
    | Claim(key: Key, payload: string)
    | MarkRunning(key: Key, turnId: string)
    | StoreConversation(key: Key, outcome: Outcome)
    | StoreFinal(key: Key, outcome: Outcome, deliveryId: string, pending: bool, now: int)
    | Prune(before: int)
    | Reopen

  function NewRow(payload: string): Row {
    Row(payload, Reported(Accepted), "conversation", "", "", "", None, "", 1, 0)
  }

  function AfterClaim(rows: Rows, key: Key, payload: string): Rows {
    if key !in rows then rows[key := NewRow(payload)]
    else if rows[key].payload == payload && rows[key].status.Retryable?
    then rows[key := rows[key].(status := Reported(Accepted), attempts := rows[key].attempts + 1)]
    else rows
  }

  function ClaimResult(rows: Rows, key: Key, payload: string): ClaimKind {
    if key !in rows then New
    else
      var r := rows[key];
      if r.payload != payload then Conflict
      else if r.status.Retryable? then New
      else if r.status.ConversationCompleted? then Resume
      else if IsSettled(r.status) then Cached
      else Active
  }

  function MarkedRunning(r: Row, turnId: string): Row {
    r.(status := Reported(Running), turnId := turnId)
  }

  function WithConversation(r: Row, o: Outcome): Row {
    r.(status := ConversationCompleted, kind := o.kind, response := o.response, message := o.message, error := o.error)
  }

  function WithFinal(r: Row, o: Outcome, deliveryId: string, pending: bool, now: int): Row {
    r.(status := if pending then DeliveryPending else Reported(o.status),
       kind := o.kind, deliveryId := deliveryId, response := o.response, message := o.message,
       error := o.error, completedAt := now)
  }

  predicate Outdated(r: Row, before: int) {
    0 < r.completedAt < before && IsSettled(r.status)
  }

  function Interrupted(r: Row): Row {
    if IsInterruptible(r.status) then r.(status := Retryable) else r
  }

  /** What a step makes of one row, if it is there. */
  function Touch(r: Row, s: Step): Row {
    match s
    case MarkRunning(_, turnId) => MarkedRunning(r, turnId)
    case StoreConversation(_, o) => WithConversation(r, o)
    case StoreFinal(_, o, deliveryId, pending, now) => WithFinal(r, o, deliveryId, pending, now)
    case _ => r
  }

  predicate Updates(s: Step, key: Key) {
    (s.MarkRunning? || s.StoreConversation? || s.StoreFinal?) && s.key == key
  }

  function After(rows: Rows, s: Step): Rows {
    match s
    case Claim(key, payload) => AfterClaim(rows, key, payload)
    case Prune(before) => map k | k in rows && !Outdated(rows[k], before) :: rows[k]
    case Reopen => map k | k in rows :: Interrupted(rows[k])
    case _ => if s.key in rows then rows[s.key := Touch(rows[s.key], s)] else rows
  }

  function Run(rows: Rows, steps: seq<Step>, n: nat): Rows
    requires n <= |steps|
  {
    if n == 0 then rows else After(Run(rows, steps, n - 1), steps[n - 1])
  }

  // ---- Claims -----------------------------------------------------------------------

  /** A claim with a different payload is a conflict and changes nothing; one with the same
      payload never is one. No claim touches another row. */
  lemma {:induction false} ClaimIsLocal(rows: Rows, key: Key, payload: string, other: Key)
    ensures ClaimResult(rows, key, payload) == Conflict <==> key in rows && rows[key].payload != payload
    ensures ClaimResult(rows, key, payload) != New ==> AfterClaim(rows, key, payload) == rows
    ensures other != key ==> (other in AfterClaim(rows, key, payload) <==> other in rows)
    ensures other != key && other in rows ==> AfterClaim(rows, key, payload)[other] == rows[other]
  {
  }

  // ---- How often a request is new ---------------------------------------------------

  /** What happened to one request: claims answered New, removals, interruptions by a restart,
      and updates that reached a row waiting to be reclaimed. */
  datatype Account = Account(news: nat, removed: nat, interrupted: nat, revived: nat)

  predicate IsRetryable(rows: Rows, key: Key) {
    key in rows && rows[key].status.Retryable?
  }

  function Charge(a: Account, rows: Rows, s: Step, key: Key): Account {
    if s.Claim? && s.key == key && ClaimResult(rows, key, s.payload).New? then a.(news := a.news + 1)
    else if s.Prune? && key in rows && Outdated(rows[key], s.before) then a.(removed := a.removed + 1)
    else if s.Reopen? && key in rows && IsInterruptible(rows[key].status) then a.(interrupted := a.interrupted + 1)
    else if Updates(s, key) && IsRetryable(rows, key) then a.(revived := a.revived + 1)
    else a
  }

  function AccountOf(steps: seq<Step>, key: Key, n: nat): Account
    requires n <= |steps|
  {
    if n == 0 then Account(0, 0, 0, 0)
        else Charge(AccountOf(steps, key, n - 1), Run(map[], steps, n - 1), steps[n - 1], key)
  }

  predicate Balanced(a: Account, rows: Rows, key: Key) {
    a.news + a.revived + (if IsRetryable(rows, key) then 1 else 0)
      == a.removed + a.interrupted + (if key in rows then 1 else 0)
  }

  lemma {:induction false} StepBalances(a: Account, rows: Rows, s: Step, key: Key)
    requires Balanced(a, rows, key)
    ensures Balanced(Charge(a, rows, s, key), After(rows, s), key)
  {
  }

  /** Under any interleaving, a request is New once for being in the ledger, once more for
      each time it was removed, and once for each interruption that a claim picked up. */
  lemma {:induction false} NewIsAccountedFor(steps: seq<Step>, key: Key, n: nat)
    requires n <= |steps|
    ensures Balanced(AccountOf(steps, key, n), Run(map[], steps, n), key)
  {
    if n > 0 {
      NewIsAccountedFor(steps, key, n - 1);
      StepBalances(AccountOf(steps, key, n - 1), Run(map[], steps, n - 1), steps[n - 1], key);
    }
  }

  lemma {:induction false} UndisturbedAccount(steps: seq<Step>, key: Key, n: nat)
    requires n <= |steps| && forall i :: 0 <= i < |steps| ==> !steps[i].Prune? && !steps[i].Reopen?
    ensures AccountOf(steps, key, n).removed == 0 && AccountOf(steps, key, n).interrupted == 0
  {
    if n > 0 {
      UndisturbedAccount(steps, key, n - 1);
    }
  }

  /** A row counts the claims answered New since it was inserted: as long as no prune removes it,
      all of them. */
  lemma {:induction false} AttemptsCountNews(steps: seq<Step>, key: Key, n: nat)
    requires n <= |steps| && AccountOf(steps, key, n).removed == 0
    ensures var rows := Run(map[], steps, n);
      AccountOf(steps, key, n).news == if key in rows then rows[key].attempts else 0
  {
    if n > 0 {
      AttemptsCountNews(steps, key, n - 1);
      NewStep(AccountOf(steps, key, n - 1), Run(map[], steps, n - 1), steps[n - 1], key);
    }
  }

  lemma {:induction false} NewStep(a: Account, rows: Rows, s: Step, key: Key)
    requires a.news == (if key in rows then rows[key].attempts else 0) && Charge(a, rows, s, key).removed == 0
    requires a.removed == 0
    ensures Charge(a, rows, s, key).news == if key in After(rows, s) then After(rows, s)[key].attempts else 0
  {
  }

  /** Between prunes and restarts at most one claim of a request is New, however many callers
      race for it. */
  lemma {:induction false} NewAtMostOnce(steps: seq<Step>, key: Key)
    requires forall i :: 0 <= i < |steps| ==> !steps[i].Prune? && !steps[i].Reopen?
    ensures AccountOf(steps, key, |steps|).news <= 1
  {
    NewIsAccountedFor(steps, key, |steps|);
    UndisturbedAccount(steps, key, |steps|);
  }

  /** A restart alone is enough for a second one: it makes an unfinished claim available. */
  lemma {:induction false} RestartMakesNewAgain(key: Key, payload: string)
    ensures AccountOf([Claim(key, payload), Reopen, Claim(key, payload)], key, 3).news == 2
  {
    var steps := [Claim(key, payload), Reopen, Claim(key, payload)];
    var one := Run(map[], steps, 1);
    assert Run(map[], steps, 0) == map[];
    assert one == map[key := NewRow(payload)];
    var two := Run(map[], steps, 2);
    assert key in two && two[key] == NewRow(payload).(status := Retryable);
    assert AccountOf(steps, key, 1).news == 1;
    assert AccountOf(steps, key, 2).news == 1;
  }

  // ---- Replay -----------------------------------------------------------------------

  /** A claim of the request is answered from its row, with this outcome. */
  predicate AnswersWith(rows: Rows, key: Key, payload: string, o: Outcome) {
    key in rows && ClaimResult(rows, key, payload) == Cached && Replay(rows[key]) == o
  }

  /** The outcome a final update leaves to be replayed. */
  function Stored(o: Outcome, pending: bool): Outcome {
    o.(status := if pending then Completed else o.status)
  }

  /** A step that leaves the answer alone: no prune that reaches the row, and no update of it
      but one that stores the same outcome again. */
  predicate Harmless(s: Step, key: Key, o: Outcome, completedAt: int) {
    && (s.Prune? ==> !(0 < completedAt < s.before))
    && (Updates(s, key) ==>
        s.StoreFinal? && (s.pending || IsFinal(s.outcome.status)) && Stored(s.outcome, s.pending) == o)
  }

  /** When the row was last completed, after the first n steps. */
  function CompletedAfter(steps: seq<Step>, key: Key, completedAt: int, n: nat): int
    requires n <= |steps|
  {
    if n == 0 then completedAt
    else if steps[n - 1].StoreFinal? && steps[n - 1].key == key then steps[n - 1].now
    else CompletedAfter(steps, key, completedAt, n - 1)
  }

  /** The delivery named by the last final update, after the first n steps. */
  function DeliveryAfter(steps: seq<Step>, key: Key, deliveryId: string, n: nat): string
    requires n <= |steps|
  {
    if n == 0 then deliveryId
    else if steps[n - 1].StoreFinal? && steps[n - 1].key == key then steps[n - 1].deliveryId
    else DeliveryAfter(steps, key, deliveryId, n - 1)
  }

  predicate AllHarmless(steps: seq<Step>, key: Key, o: Outcome, completedAt: int, n: nat)
    requires n <= |steps|
  {
    n == 0 || (AllHarmless(steps, key, o, completedAt, n - 1)
        && Harmless(steps[n - 1], key, o, CompletedAfter(steps, key, completedAt, n - 1)))
  }

  /** After each of the first n steps, the answer is this outcome. */
  ghost predicate AlwaysAnswers(rows: Rows, steps: seq<Step>, key: Key, payload: string, o: Outcome, n: nat)
    requires n <= |steps|
  {
    forall k: nat :: k <= n ==> AnswersWith(Run(rows, steps, k), key, payload, o)
  }

  /** One step keeps the answer exactly when it is harmless. */
  lemma {:induction false} StepKeepsAnswerIff(rows: Rows, s: Step, key: Key, payload: string, o: Outcome)
    requires AnswersWith(rows, key, payload, o)
    ensures AnswersWith(After(rows, s), key, payload, o) <==> Harmless(s, key, o, rows[key].completedAt)
    ensures AnswersWith(After(rows, s), key, payload, o) ==>
      && After(rows, s)[key].completedAt == (if s.StoreFinal? && s.key == key then s.now else rows[key].completedAt)
      && After(rows, s)[key].deliveryId
          == (if s.StoreFinal? && s.key == key then s.deliveryId else rows[key].deliveryId)
  {
  }

  lemma {:induction false} RunKeepsAnswerIff(rows: Rows, steps: seq<Step>, key: Key, payload: string, o: Outcome,
        n: nat)
    requires n <= |steps| && AnswersWith(rows, key, payload, o)
    ensures AlwaysAnswers(rows, steps, key, payload, o, n) <==> AllHarmless(steps, key, o, rows[key].completedAt, n)
    ensures AllHarmless(steps, key, o, rows[key].completedAt, n) ==>
      && key in Run(rows, steps, n)
      && Run(rows, steps, n)[key].completedAt == CompletedAfter(steps, key, rows[key].completedAt, n)
      && Run(rows, steps, n)[key].deliveryId == DeliveryAfter(steps, key, rows[key].deliveryId, n)
  {
    if n > 0 {
      RunKeepsAnswerIff(rows, steps, key, payload, o, n - 1);
      var before := Run(rows, steps, n - 1);
      assert Run(rows, steps, n) == After(before, steps[n - 1]);
      assert AlwaysAnswers(rows, steps, key, payload, o, n)
        <==> AlwaysAnswers(rows, steps, key, payload, o, n - 1) && AnswersWith(Run(rows, steps, n), key, payload, o);
      if AllHarmless(steps, key, o, rows[key].completedAt, n - 1) {
        assert AnswersWith(before, key, payload, o);
        StepKeepsAnswerIff(before, steps[n - 1], key, payload, o);
      }
    }
  }

  /** Exactly when a stored final outcome is replayed at every later point: no later step
      prunes its row or stores anything else for the request. The delivery it names is then
      the last one stored. */
  lemma {:induction false} FinalIsReplayedIff(rows: Rows, key: Key, o: Outcome, deliveryId: string, pending: bool,
        now: int, steps: seq<Step>)
    requires key in rows && (pending || IsFinal(o.status))
    ensures var start := After(rows, StoreFinal(key, o, deliveryId, pending, now));
      var harmless := AllHarmless(steps, key, Stored(o, pending), now, |steps|);
      var later := Run(start, steps, |steps|);
      && (AlwaysAnswers(start, steps, key, rows[key].payload, Stored(o, pending), |steps|) <==> harmless)
      && (harmless ==> key in later && later[key].deliveryId == DeliveryAfter(steps, key, deliveryId, |steps|))
  {
    var start := After(rows, StoreFinal(key, o, deliveryId, pending, now));
    RunKeepsAnswerIff(start, steps, key, rows[key].payload, Stored(o, pending), |steps|);
  }

  /** The replay tells the truth exactly for final outcomes whose delivery, if it is pending,
      follows a completed conversation. */
  lemma {:induction false} ReplayIsTruthfulIff(rows: Rows, key: Key, o: Outcome, deliveryId: string, pending: bool,
        now: int)
    requires key in rows
    ensures var later := After(rows, StoreFinal(key, o, deliveryId, pending, now));
      (ClaimResult(later, key, rows[key].payload) == Cached && Replay(later[key]) == o)
          <==> (IsFinal(o.status) && (pending ==> o.status.Completed?))
  {
  }

  /** Once its conversation is stored, a request is resumed by every claim with its payload, which
      changes nothing and is given what the conversation said. */
  lemma {:induction false} ConversationIsResumed(rows: Rows, key: Key, o: Outcome)
    requires key in rows
    ensures var later := After(rows, StoreConversation(key, o));
      var payload := rows[key].payload;
      && ClaimResult(later, key, payload) == Resume && After(later, Claim(key, payload)) == later
      && Replay(later[key]) == Outcome(Completed, o.kind, o.response, o.message, o.error)
      && later[key] == rows[key].(status := later[key].status, kind := o.kind, response := o.response,
                                  message := o.message, error := o.error)
  {
  }

  /** A request marked as running is active, under the turn that runs it. */
  lemma {:induction false} RunningIsActive(rows: Rows, key: Key, turnId: string)
    requires key in rows
    ensures var later := After(rows, MarkRunning(key, turnId));
      && ClaimResult(later, key, rows[key].payload) == Active
      && later[key] == rows[key].(status := later[key].status, turnId := turnId)
  {
  }

  /** No update looks at what is stored: one that arrives after the final outcome takes it
      back, and after a restart the request is New once more. */
  lemma {:induction false} LateUpdateUndoesFinal(rows: Rows, key: Key, o: Outcome, turnId: string)
    requires key in rows
    ensures var final := After(rows, StoreFinal(key, o, "", false, 1));
      var late := After(final, MarkRunning(key, turnId));
      && ClaimResult(late, key, rows[key].payload) == Active
      && ClaimResult(After(late, Reopen), key, rows[key].payload) == New
  {
  }

  // ---- Restarts ---------------------------------------------------------------------

  /** After a restart a claim is new exactly for an unknown request, or for one that was
      unfinished; every other claim is answered as before. */
  lemma {:induction false} ReopenMakesNewIff(rows: Rows, key: Key, payload: string)
    ensures var unfinished := key in rows && rows[key].payload == payload
        && (rows[key].status.Retryable? || IsInterruptible(rows[key].status));
      && (ClaimResult(After(rows, Step.Reopen), key, payload) == New <==> key !in rows || unfinished)
      && (key in rows && !unfinished ==>
          ClaimResult(After(rows, Step.Reopen), key, payload) == ClaimResult(rows, key, payload))
  {
  }

  // ---- The ledger object ------------------------------------------------------------

  class DurableSubmissionLedger {
    var rows: Rows

    constructor ()
      ensures rows == map[]
    {
      rows := map[];
    }

    method Claim(key: Key, payload: string) returns (kind: ClaimKind, record: Row)
      modifies this
      ensures rows == AfterClaim(old(rows), key, payload) && kind == ClaimResult(old(rows), key, payload)
      ensures key in rows && record == rows[key]
      ensures kind.New? ==> record.status == Reported(Accepted)
    {
      var owned := key !in rows;
      if owned {
        rows := rows[key := NewRow(payload)];
      } else if rows[key].payload == payload && rows[key].status.Retryable? {
        rows := rows[key := rows[key].(status := Reported(Accepted), attempts := rows[key].attempts + 1)];
        owned := true;
      }
      record := rows[key];
      if record.payload != payload {
        kind := Conflict;
      } else if owned {
        kind := New;
      } else if record.status.ConversationCompleted? {
        kind := Resume;
      } else if IsSettled(record.status) {
        kind := Cached;
      } else {
        kind := Active;
      }
    }

    method Update(s: Step)
      requires s.MarkRunning? || s.StoreConversation? || s.StoreFinal?
      modifies this
      ensures rows == After(old(rows), s)
      ensures rows.Keys == old(rows).Keys && forall k | k in rows && k != s.key :: rows[k] == old(rows)[k]
    {
      if s.key in rows {
        rows := rows[s.key := Touch(rows[s.key], s)];
      }
    }

    /** Removes settled rows completed before a time. */
    method Prune(before: int) returns (count: nat)
      modifies this
      ensures rows == After(old(rows), Step.Prune(before)) && count == |old(rows)| - |rows|
    {
      var kept := map k | k in rows && !Outdated(rows[k], before) :: rows[k];
      assert kept.Keys <= rows.Keys;
      KeysBound(kept.Keys, rows.Keys);
      count := |rows.Keys| - |kept.Keys|;
      rows := kept;
    }

    /** Opening the database marks unfinished claims for another attempt. */
    method Reopen()
      modifies this
      ensures rows == After(old(rows), Step.Reopen) && rows.Keys == old(rows).Keys
      ensures forall k | k in rows :: !IsInterruptible(rows[k].status) && rows[k].attempts == old(rows)[k].attempts
      ensures forall k | k in rows && IsSettled(old(rows)[k].status) :: rows[k] == old(rows)[k]
    {
      rows := map k | k in rows :: Interrupted(rows[k]);
    }
  }

  lemma {:induction false} KeysBound<T>(a: set<T>, b: set<T>)
    requires a <= b
    ensures |a| <= |b|
  {
    assert b == a + (b - a);
  }
}
