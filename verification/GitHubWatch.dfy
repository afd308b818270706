/** Watching repositories: each poll compares what it observes with what it observed before,
    queues an event for every difference, and tells the configured sessions. */
module GitHubWatch {
  import opened Options

  type Item = string
  type Items = map<string, Item>
  /** Items by category. */
  type Snapshot = map<string, Items>
  type Snapshots = map<string, Snapshot>

  datatype Change = Initial | Created | Updated

  /** What an event's id is computed from; distinct values have distinct ids. */
  datatype EventId = EventId(repo: string, category: string, key: string, change: Change, current: Item)

  datatype Event = Event(id: EventId, previous: Option<Item>)

  /** An item of a repository has this value. */
  datatype Fact = Fact(repo: string, category: string, key: string, value: Item)

  datatype Config = Config(repositories: seq<string>, categories: set<string>, notifyOnStart: bool,
      sessions: seq<string>)

  /** How a session took a submission. A handle without an outcome counts as taken. */
  datatype Outcome = Accepted | Unreported | Refused | Raised

  /** What the outside world does during one poll: the items fetched for each configured
      repository and category, none when the call failed, and how each session answers. */
  datatype Poll = Poll(fetch: (nat, string) -> Option<Items>, outcomes: nat -> Outcome)

  // ---- Snapshots --------------------------------------------------------------------

  predicate Holds(s: Snapshots, f: Fact) {
    f.repo in s && HoldsIn(s[f.repo], f.category, f.key, f.value)
  }

  predicate HoldsIn(s: Snapshot, category: string, key: string, value: Item) {
    category in s && key in s[category] && s[category][key] == value
  }

  function Of(s: Snapshots, repo: string): Snapshot {
    if repo in s then s[repo] else map[]
  }

  function ItemsOf(s: Snapshot, category: string): Items {
    if category in s then s[category] else map[]
  }

  /** A failed category keeps what was observed before. */
  function Current(categories: set<string>, previous: Snapshot, fetched: string -> Option<Items>): Snapshot {
    map c | c in categories :: if fetched(c).Some? then fetched(c).value else ItemsOf(previous, c)
  }

  // ---- Events -----------------------------------------------------------------------

  predicate Changed(previous: Snapshot, category: string, key: string, value: Item) {
    !HoldsIn(previous, category, key, value)
  }

  function EventFor(repo: string, previous: Snapshot, category: string, key: string, value: Item,
        initial: bool): Event {
    var known := ItemsOf(previous, category);
    if initial then Event(EventId(repo, category, key, Initial, value), None)
    else if key in known then Event(EventId(repo, category, key, Updated, value), Some(known[key]))
    else Event(EventId(repo, category, key, Created, value), None)
  }

  function Diff(repo: string, previous: Snapshot, current: Snapshot, initial: bool): set<Event> {
    set c, k | c in current && k in current[c] && Changed(previous, c, k, current[c][k]) ::
        EventFor(repo, previous, c, k, current[c][k], initial)
  }

  function FactOf(e: Event): Fact {
    Fact(e.id.repo, e.id.category, e.id.key, e.id.current)
  }

  predicate Reports(events: seq<Event>, f: Fact) {
    exists e | e in events :: FactOf(e) == f
  }

  predicate AmongEvents(events: set<Event>, f: Fact) {
    exists e | e in events :: FactOf(e) == f
  }

  // ---- One scan of all repositories -------------------------------------------------

  /** `baseline` collects what a first observation takes as known without telling anyone. */
  datatype Scan = Scan(observed: Snapshots, delivered: Snapshots, events: set<Event>, baseline: set<Fact>)

  predicate Named(repo: string) {
    repo != "" && '/' in repo
  }

  function FactsOf(repo: string, s: Snapshot): set<Fact> {
    set c, k | c in s && k in s[c] :: Fact(repo, c, k, s[c][k])
  }

  function ScanOne(c: Config, s: Scan, repo: string, fetched: string -> Option<Items>): Scan {
    if !Named(repo) then s
    else
      var previous := Of(s.observed, repo);
      var current := Current(c.categories, previous, fetched);
      var next := s.(observed := s.observed[repo := current]);
      if previous != map[] then next.(events := s.events + Diff(repo, previous, current, false))
      else if c.notifyOnStart then next.(events := s.events + Diff(repo, map[], current, true))
      else next.(delivered := s.delivered[repo := current], baseline := s.baseline + FactsOf(repo, current))
  }

  function ScanAll(c: Config, s: Scan, fetch: (nat, string) -> Option<Items>, n: nat): Scan
    requires n <= |c.repositories|
  {
    if n == 0 then s
    else ScanOne(c, ScanAll(c, s, fetch, n - 1), c.repositories[n - 1], (category: string) => fetch(n - 1, category))
  }

  // ---- The watcher ------------------------------------------------------------------

  /** The persistent state, with two records the watcher itself does not keep: what was taken
      as a baseline, and what every session has been told. */
  datatype Watch = Watch(observed: Snapshots, delivered: Snapshots, pending: seq<Event>, baseline: set<Fact>,
      told: set<Fact>)

  const NEW_WATCH := Watch(map[], map[], [], {}, {})

  function Ids(events: seq<Event>): set<EventId> {
    set e | e in events :: e.id
  }

  function Unknown(events: set<Event>, pending: seq<Event>): set<Event> {
    set e | e in events && e.id !in Ids(pending)
  }

  predicate Takes(o: Outcome) {
    o.Accepted? || o.Unreported?
  }

  predicate AllTake(c: Config, p: Poll) {
    c.sessions != [] && forall i :: 0 <= i < |c.sessions| ==> Takes(p.outcomes(i))
  }

  function Told(events: seq<Event>): set<Fact> {
    set e | e in events :: FactOf(e)
  }

  /** After the scan: tell the sessions, and forget what is pending once all have taken it. */
  function Deliver(c: Config, w: Watch, p: Poll): Watch {
    if w.pending != [] && AllTake(c, p)
        then w.(delivered := w.observed, pending := [], told := w.told + Told(w.pending)) else w
  }

  function StartScan(w: Watch): Scan {
    Scan(w.observed, w.delivered, {}, w.baseline)
  }

  /** One poll leads from w to x; the order in which a poll queues its events is left open. */
  ghost predicate Polls(c: Config, w: Watch, p: Poll, x: Watch) {
    exists added: seq<Event> :: PollsAdding(c, w, p, x, added)
  }

  ghost predicate PollsAdding(c: Config, w: Watch, p: Poll, x: Watch, added: seq<Event>) {
    var s := ScanAll(c, StartScan(w), p.fetch, |c.repositories|);
    && (forall e :: e in added <==> e in Unknown(s.events, w.pending))
    && x == Deliver(c, Watch(s.observed, s.delivered, w.pending + added, s.baseline, w.told), p)
  }

  // ---- Nothing is lost --------------------------------------------------------------

  /** Each observed value is delivered or about to be. */
  ghost predicate Covered(w: Watch) {
    forall f :: Holds(w.observed, f) ==> Holds(w.delivered, f) || Reports(w.pending, f)
  }

  /** Each delivered value is one the sessions were told, or was taken as a baseline. */
  ghost predicate Truthful(delivered: Snapshots, baseline: set<Fact>, told: set<Fact>) {
    forall f :: Holds(delivered, f) ==> f in baseline || f in told
  }

  ghost predicate ScanCovered(s: Scan, pending: seq<Event>) {
    forall f :: Holds(s.observed, f) ==> Holds(s.delivered, f) || Reports(pending, f) || AmongEvents(s.events, f)
  }

  lemma {:induction false} DiffReports(repo: string, previous: Snapshot, current: Snapshot, initial: bool,
        category: string, key: string, value: Item)
    requires HoldsIn(current, category, key, value) && Changed(previous, category, key, value)
    ensures AmongEvents(Diff(repo, previous, current, initial), Fact(repo, category, key, value))
  {
    var e := EventFor(repo, previous, category, key, value, initial);
    assert e in Diff(repo, previous, current, initial) && FactOf(e) == Fact(repo, category, key, value);
  }

  lemma {:induction false} ScanOneCovers(c: Config, s: Scan, repo: string, fetched: string -> Option<Items>,
        pending: seq<Event>)
    requires ScanCovered(s, pending)
    ensures ScanCovered(ScanOne(c, s, repo, fetched), pending)
  {
    var next := ScanOne(c, s, repo, fetched);
    if Named(repo) {
      var previous := Of(s.observed, repo);
      var current := Current(c.categories, previous, fetched);
      forall f | Holds(next.observed, f)
        ensures Holds(next.delivered, f) || Reports(pending, f) || AmongEvents(next.events, f)
      {
        if f.repo == repo && Changed(previous, f.category, f.key, f.value) {
          DiffReports(repo, previous, current, previous == map[], f.category, f.key, f.value);
        } else {
          assert Holds(s.observed, f);
        }
        if AmongEvents(s.events, f) {
          var e :| e in s.events && FactOf(e) == f;
          assert e in next.events;
        }
      }
    }
  }

  lemma {:induction false} ScanOneTruthful(c: Config, s: Scan, repo: string, fetched: string -> Option<Items>,
        told: set<Fact>)
    requires Truthful(s.delivered, s.baseline, told)
    ensures var next := ScanOne(c, s, repo, fetched);
      Truthful(next.delivered, next.baseline, told) && s.baseline <= next.baseline
  {
    var next := ScanOne(c, s, repo, fetched);
    forall f | Holds(next.delivered, f)
      ensures f in next.baseline || f in told
    {
      if !Holds(s.delivered, f) {
        var current := Current(c.categories, Of(s.observed, repo), fetched);
        assert f in FactsOf(repo, current);
      }
    }
  }

  lemma {:induction false} ScanAllKeeps(c: Config, s: Scan, fetch: (nat, string) -> Option<Items>, n: nat,
        pending: seq<Event>, told: set<Fact>)
    requires n <= |c.repositories|
    requires ScanCovered(s, pending) && Truthful(s.delivered, s.baseline, told)
    ensures var next := ScanAll(c, s, fetch, n);
      ScanCovered(next, pending) && Truthful(next.delivered, next.baseline, told) && s.baseline <= next.baseline
  {
    if n > 0 {
      ScanAllKeeps(c, s, fetch, n - 1, pending, told);
      var before, repo, fetched :=
          ScanAll(c, s, fetch, n - 1), c.repositories[n - 1], (category: string) => fetch(n - 1, category);
      ScanOneCovers(c, before, repo, fetched, pending);
      ScanOneTruthful(c, before, repo, fetched, told);
    }
  }

  /** Queueing only events with unknown ids loses nothing: the id names the value. */
  lemma {:induction false} QueueingCovers(s: Scan, pending: seq<Event>, added: seq<Event>)
    requires ScanCovered(s, pending) && (forall e :: e in added <==> e in Unknown(s.events, pending))
    ensures forall f | Holds(s.observed, f) :: Holds(s.delivered, f) || Reports(pending + added, f)
  {
    forall f | Holds(s.observed, f)
      ensures Holds(s.delivered, f) || Reports(pending + added, f)
    {
      if Reports(pending, f) {
        var e :| e in pending && FactOf(e) == f;
        assert e in pending + added;
      } else if AmongEvents(s.events, f) {
        var e :| e in s.events && FactOf(e) == f;
        if e.id !in Ids(pending) {
          assert e in pending + added;
        }
      }
    }
  }

  /** What the watcher has dealt with, or is still going to. */
  ghost predicate DealtWith(w: Watch, f: Fact) {
    f in w.baseline || f in w.told || Reports(w.pending, f)
  }

  lemma {:induction false} DeliverKeeps(c: Config, w: Watch, p: Poll)
    requires Covered(w) && Truthful(w.delivered, w.baseline, w.told)
    ensures var x := Deliver(c, w, p);
      && Covered(x) && Truthful(x.delivered, x.baseline, x.told)
      && forall f | DealtWith(w, f) :: DealtWith(x, f)
  {
    var x := Deliver(c, w, p);
    forall f | Reports(w.pending, f)
      ensures x == w || f in x.told
    {
      var e :| e in w.pending && FactOf(e) == f;
    }
  }

  /** Every poll keeps both, whatever was fetched, failed, taken or refused. */
  lemma {:induction false} PollKeeps(c: Config, w: Watch, p: Poll, x: Watch)
    requires Polls(c, w, p, x) && Covered(w) && Truthful(w.delivered, w.baseline, w.told)
    ensures Covered(x) && Truthful(x.delivered, x.baseline, x.told)
    ensures forall f | DealtWith(w, f) :: DealtWith(x, f)
  {
    var added :| PollsAdding(c, w, p, x, added);
    var s := ScanAll(c, StartScan(w), p.fetch, |c.repositories|);
    ScanAllKeeps(c, StartScan(w), p.fetch, |c.repositories|, w.pending, w.told);
    QueueingCovers(s, w.pending, added);
    var y := Watch(s.observed, s.delivered, w.pending + added, s.baseline, w.told);
    forall f | DealtWith(w, f)
      ensures DealtWith(y, f)
    {
      if Reports(w.pending, f) {
        var e :| e in w.pending && FactOf(e) == f;
        assert e in y.pending;
      }
    }
    DeliverKeeps(c, y, p);
  }

  // ---- Whole runs -------------------------------------------------------------------

  /** A run: the states between polls, each poll with the configuration then in force. */
  ghost predicate IsRun(states: seq<Watch>, configs: seq<Config>, polls: seq<Poll>) {
    && |states| == |polls| + 1 && |configs| == |polls|
    && states[0] == NEW_WATCH
    && forall i {:trigger polls[i]} :: 0 <= i < |polls| ==> Polls(configs[i], states[i], polls[i], states[i + 1])
  }

  lemma {:induction false} AlwaysCovered(states: seq<Watch>, configs: seq<Config>, polls: seq<Poll>, i: nat)
    requires IsRun(states, configs, polls) && i < |states|
    ensures Covered(states[i]) && Truthful(states[i].delivered, states[i].baseline, states[i].told)
  {
    if i > 0 {
      AlwaysCovered(states, configs, polls, i - 1);
      assert Polls(configs[i - 1], states[i - 1], polls[i - 1], states[i]);
      PollKeeps(configs[i - 1], states[i - 1], polls[i - 1], states[i]);
    }
  }

  /** No value is ever lost: whatever was observed at some point, even if it was gone by the
      next poll, has been told to every session, was part of the first silent observation of
      its repository, or is still waiting to be told. */
  lemma {:induction false} NothingIsLost(states: seq<Watch>, configs: seq<Config>, polls: seq<Poll>, i: nat, j: nat,
        f: Fact)
    requires IsRun(states, configs, polls) && i <= j < |states| && Holds(states[i].observed, f)
    ensures DealtWith(states[j], f)
    decreases j
  {
    AlwaysCovered(states, configs, polls, i);
    if i < j {
      NothingIsLost(states, configs, polls, i, j - 1, f);
      AlwaysCovered(states, configs, polls, j - 1);
      assert Polls(configs[j - 1], states[j - 1], polls[j - 1], states[j]);
      PollKeeps(configs[j - 1], states[j - 1], polls[j - 1], states[j]);
    }
  }

  /** An event leaves the queue exactly when there are sessions and all of them took it. */
  lemma {:induction false} PendingLeavesIff(c: Config, w: Watch, p: Poll, x: Watch, e: Event)
    requires Polls(c, w, p, x) && e in w.pending
    ensures e !in x.pending <==>
      c.sessions != [] && forall i :: 0 <= i < |c.sessions| ==> p.outcomes(i) == Accepted || p.outcomes(i) == Unreported
    ensures e !in x.pending ==> FactOf(e) in x.told && x.pending == []
  {
    var added :| PollsAdding(c, w, p, x, added);
    assert e in w.pending + added;
  }

  // ---- One repository within a poll -------------------------------------------------

  /** Scanning one repository leaves the others alone. */
  lemma {:induction false} ScanOneFrames(c: Config, s: Scan, other: string, fetched: string -> Option<Items>,
        repo: string)
    requires other != repo
    ensures var next := ScanOne(c, s, other, fetched);
      && Of(next.observed, repo) == Of(s.observed, repo)
      && forall e: Event | e.id.repo == repo :: e in next.events <==> e in s.events
  {
  }

  lemma {:induction false} ScanFrames(c: Config, s: Scan, fetch: (nat, string) -> Option<Items>, n: nat, repo: string)
    requires n <= |c.repositories| && forall i :: 0 <= i < n ==> c.repositories[i] != repo
    ensures var next := ScanAll(c, s, fetch, n);
      && Of(next.observed, repo) == Of(s.observed, repo)
      && forall e: Event | e.id.repo == repo :: e in next.events <==> e in s.events
  {
    if n > 0 {
      ScanFrames(c, s, fetch, n - 1, repo);
      ScanOneFrames(c, ScanAll(c, s, fetch, n - 1), c.repositories[n - 1],
          (category: string) => fetch(n - 1, category), repo);
    }
  }

  predicate OnlyAt(c: Config, at: nat) {
    at < |c.repositories| && '/' in c.repositories[at] && forall i :: 0 <= i < |c.repositories| && i != at ==>
        c.repositories[i] != c.repositories[at]
  }

  /** The snapshot a poll takes of the repository configured at this place. */
  function Taken(c: Config, w: Watch, p: Poll, at: nat): Snapshot
    requires at < |c.repositories|
  {
    Current(c.categories, Of(w.observed, c.repositories[at]), (category: string) => p.fetch(at, category))
  }

  /** What a scan makes of a repository that is configured once. */
  lemma {:induction false} ScanOf(c: Config, w: Watch, p: Poll, at: nat, n: nat)
    requires OnlyAt(c, at) && at < n <= |c.repositories|
    ensures var s, repo := ScanAll(c, StartScan(w), p.fetch, n), c.repositories[at];
      var previous, current := Of(w.observed, repo), Taken(c, w, p, at);
      && Of(s.observed, repo) == current
      && forall e: Event | e.id.repo == repo ::
           e in s.events <==>
             (previous != map[] || c.notifyOnStart) && e in Diff(repo, previous, current, previous == map[])
  {
    var repo := c.repositories[at];
    if n - 1 == at {
      ScanFrames(c, StartScan(w), p.fetch, at, repo);
      var before := ScanAll(c, StartScan(w), p.fetch, at);
      assert ScanAll(c, StartScan(w), p.fetch, n)
          == ScanOne(c, before, repo, (category: string) => p.fetch(at, category));
    } else {
      ScanOf(c, w, p, at, n - 1);
      ScanOneFrames(c, ScanAll(c, StartScan(w), p.fetch, n - 1), c.repositories[n - 1],
          (category: string) => p.fetch(n - 1, category), repo);
    }
  }

  // ---- What is observed and queued --------------------------------------------------

  /** After a poll, an item of a repository configured once is observed exactly when the call for
      its category returned it with that value, or failed and it was observed before. What a
      successful call leaves out is forgotten. */
  lemma {:induction false} ObservedIff(c: Config, w: Watch, p: Poll, x: Watch, at: nat, category: string, key: string,
        value: Item)
    requires Polls(c, w, p, x) && OnlyAt(c, at)
    ensures var repo, fetched := c.repositories[at], p.fetch(at, category);
      Holds(x.observed, Fact(repo, category, key, value)) <==>
        && category in c.categories
        && if fetched.Some? then key in fetched.value && fetched.value[key] == value
           else Holds(w.observed, Fact(repo, category, key, value))
  {
    var added :| PollsAdding(c, w, p, x, added);
    ScanOf(c, w, p, at, |c.repositories|);
    var repo, previous := c.repositories[at], Of(w.observed, c.repositories[at]);
    HoldsInOf(x.observed, repo, category, key, value);
    HoldsInOf(w.observed, repo, category, key, value);
  }

  lemma {:induction false} HoldsInOf(s: Snapshots, repo: string, category: string, key: string, value: Item)
    ensures Holds(s, Fact(repo, category, key, value)) <==> HoldsIn(Of(s, repo), category, key, value)
  {
  }

  /** The event says what an item became, and what it was: nothing when it is new. */
  predicate Describes(e: Event, previous: Snapshot, initial: bool) {
    var known := ItemsOf(previous, e.id.category);
    if !initial && e.id.key in known then
      e.id.change == Updated && e.previous == Some(known[e.id.key]) && e.id.current != known[e.id.key]
    else e.id.change == (if initial then Initial else Created) && e.previous == None
  }

  /** A poll that tells no one queues, of the events not waiting already, exactly those that
      describe an item it observed: a changed one, a new one, or, on the first look at a
      repository, any at all when a start is to be told. */
  lemma {:induction false} QueuedIff(c: Config, w: Watch, p: Poll, x: Watch, at: nat, e: Event)
    requires Polls(c, w, p, x) && !AllTake(c, p) && OnlyAt(c, at) && e.id.repo == c.repositories[at]
    requires e.id !in Ids(w.pending)
    ensures var previous := Of(w.observed, e.id.repo);
      e in x.pending <==>
        && (previous != map[] || c.notifyOnStart)
        && Holds(x.observed, FactOf(e)) && Describes(e, previous, previous == map[])
  {
    var added :| PollsAdding(c, w, p, x, added);
    var previous, current := Of(w.observed, e.id.repo), Taken(c, w, p, at);
    ScanOf(c, w, p, at, |c.repositories|);
    HoldsInOf(x.observed, e.id.repo, e.id.category, e.id.key, e.id.current);
    assert e !in w.pending;
    DiffDescribes(e.id.repo, previous, current, e);
  }

  lemma {:induction false} DiffDescribes(repo: string, previous: Snapshot, current: Snapshot, e: Event)
    requires e.id.repo == repo
    ensures e in Diff(repo, previous, current, previous == map[])
       <==> HoldsIn(current, e.id.category, e.id.key, e.id.current) && Describes(e, previous, previous == map[])
  {
    var initial := previous == map[];
    if HoldsIn(current, e.id.category, e.id.key, e.id.current) && Describes(e, previous, initial) {
      assert e == EventFor(repo, previous, e.id.category, e.id.key, e.id.current, initial);
    }
  }

  /** An item that a successful call left out, and that a later call returns, is queued as created,
      with whatever value it comes back. */
  lemma {:induction false} ReturnedItemIsCreated(c: Config, w: Watch, p: Poll, x: Watch, q: Poll, y: Watch, at: nat,
        category: string, key: string, value: Item)
    requires Polls(c, w, p, x) && Polls(c, x, q, y) && !AllTake(c, q) && OnlyAt(c, at) && category in c.categories
    requires p.fetch(at, category).Some? && key !in p.fetch(at, category).value
    requires q.fetch(at, category).Some? && key in q.fetch(at, category).value
    requires value == q.fetch(at, category).value[key]
    ensures EventId(c.repositories[at], category, key, Created, value) in Ids(y.pending)
  {
    var repo := c.repositories[at];
    var e := Event(EventId(repo, category, key, Created, value), None);
    if e.id in Ids(x.pending) {
      StillWaiting(c, x, q, y, e.id);
    } else {
      var added :| PollsAdding(c, w, p, x, added);
      ScanOf(c, w, p, at, |c.repositories|);
      assert category in Of(x.observed, repo) && key !in Of(x.observed, repo)[category];
      ObservedIff(c, x, q, y, at, category, key, value);
      QueuedIff(c, x, q, y, at, e);
    }
  }

  lemma {:induction false} StillWaiting(c: Config, w: Watch, p: Poll, x: Watch, id: EventId)
    requires Polls(c, w, p, x) && !AllTake(c, p) && id in Ids(w.pending)
    ensures id in Ids(x.pending)
  {
    var added :| PollsAdding(c, w, p, x, added);
    var e :| e in w.pending && e.id == id;
    assert e in w.pending + added;
  }

  /** A repository that is not named by an owner and a name is not looked at. */
  lemma {:induction false} UnnamedIsSkipped(c: Config, w: Watch, p: Poll, x: Watch, repo: string)
    requires Polls(c, w, p, x) && '/' !in repo
    ensures Of(x.observed, repo) == Of(w.observed, repo)
    ensures forall e | e in x.pending && e.id.repo == repo :: e in w.pending
  {
    var added :| PollsAdding(c, w, p, x, added);
    UnnamedScan(c, StartScan(w), p.fetch, |c.repositories|, repo);
    forall e | e in x.pending && e.id.repo == repo
      ensures e in w.pending
    {
      assert e in w.pending + added;
    }
  }

  lemma {:induction false} UnnamedScan(c: Config, s: Scan, fetch: (nat, string) -> Option<Items>, n: nat, repo: string)
    requires n <= |c.repositories| && '/' !in repo
    ensures var next := ScanAll(c, s, fetch, n);
      && Of(next.observed, repo) == Of(s.observed, repo)
      && forall e: Event | e.id.repo == repo :: e in next.events <==> e in s.events
  {
    if n > 0 {
      UnnamedScan(c, s, fetch, n - 1, repo);
      if c.repositories[n - 1] != repo {
        ScanOneFrames(c, ScanAll(c, s, fetch, n - 1), c.repositories[n - 1],
            (category: string) => fetch(n - 1, category), repo);
      }
    }
  }

  // ---- Failed calls -----------------------------------------------------------------

  /** Every configured occurrence of the repository fails for this category. */
  predicate Fails(c: Config, p: Poll, repo: string, category: string) {
    forall i :: 0 <= i < |c.repositories| && c.repositories[i] == repo ==> p.fetch(i, category) == None
  }

  lemma {:induction false} FailedScanIsSilent(c: Config, w: Watch, p: Poll, n: nat, repo: string, category: string)
    requires n <= |c.repositories| && category in c.categories && Fails(c, p, repo, category)
    ensures var s := ScanAll(c, StartScan(w), p.fetch, n);
      && ItemsOf(Of(s.observed, repo), category) == ItemsOf(Of(w.observed, repo), category)
      && forall e | e in s.events && e.id.repo == repo :: e.id.category != category
  {
    if n > 0 {
      FailedScanIsSilent(c, w, p, n - 1, repo, category);
      var before, other, fetched :=
          ScanAll(c, StartScan(w), p.fetch, n - 1), c.repositories[n - 1], (x: string) => p.fetch(n - 1, x);
      if other == repo {
        FailedOneIsSilent(c, before, repo, fetched, category);
      } else {
        ScanOneFrames(c, before, other, fetched, repo);
      }
    }
  }

  lemma {:induction false} FailedOneIsSilent(c: Config, s: Scan, repo: string, fetched: string -> Option<Items>,
        category: string)
    requires category in c.categories && fetched(category) == None
    requires forall e | e in s.events && e.id.repo == repo :: e.id.category != category
    ensures var next := ScanOne(c, s, repo, fetched);
      && ItemsOf(Of(next.observed, repo), category) == ItemsOf(Of(s.observed, repo), category)
      && forall e | e in next.events && e.id.repo == repo :: e.id.category != category
  {
    var previous := Of(s.observed, repo);
    var current := Current(c.categories, previous, fetched);
    assert category in current && current[category] == ItemsOf(previous, category);
    forall k, v | HoldsIn(current, category, k, v)
      ensures HoldsIn(previous, category, k, v)
    {
      assert k in ItemsOf(previous, category);
    }
  }

  /** A category whose calls fail in a poll queues no event, and keeps its observed items. */
  lemma {:induction false} FailureIsSilent(c: Config, w: Watch, p: Poll, x: Watch, repo: string, category: string)
    requires Polls(c, w, p, x) && category in c.categories && Fails(c, p, repo, category)
    ensures ItemsOf(Of(x.observed, repo), category) == ItemsOf(Of(w.observed, repo), category)
    ensures forall e | e in x.pending && e.id.repo == repo && e.id.category == category :: e in w.pending
  {
    var added :| PollsAdding(c, w, p, x, added);
    FailedScanIsSilent(c, w, p, |c.repositories|, repo, category);
    forall e | e in x.pending && e.id.repo == repo && e.id.category == category
      ensures e in w.pending
    {
      assert e in w.pending + added;
    }
  }

  // ---- A silent start ---------------------------------------------------------------

  /** Everything the second poll fetches of a repository was fetched by the first one. */
  ghost predicate NothingNew(c: Config, p: Poll, q: Poll, at: nat) {
    forall category, key | category in c.categories && q.fetch(at, category).Some?
        && key in q.fetch(at, category).value ::
      && p.fetch(at, category).Some? && key in p.fetch(at, category).value
      && p.fetch(at, category).value[key] == q.fetch(at, category).value[key]
  }

  /** No repository is configured twice. */
  predicate DistinctRepositories(c: Config) {
    forall i, j :: 0 <= i < j < |c.repositories| ==> c.repositories[i] != c.repositories[j]
  }

  /** Two polls of a watcher that starts silently: nothing has been told or queued after them
      exactly when the second one fetched nothing that the first one had not. What a failed
      first call left out is reported as created, however old it is. */
  lemma {:induction false} SilentStartIff(c: Config, p: Poll, x: Watch, q: Poll, y: Watch)
    requires DistinctRepositories(c) && !c.notifyOnStart
    requires Polls(c, NEW_WATCH, p, x) && Polls(c, x, q, y)
    ensures x.pending == [] && x.told == {}
    ensures y.pending == [] && y.told == {}
       <==> forall at: nat | at < |c.repositories| && Named(c.repositories[at]) :: NothingNew(c, p, q, at)
  {
    FirstIsQuiet(c, p, x);
    QuietIff(c, x, q, y);
    forall at: nat | at < |c.repositories| && Named(c.repositories[at])
      ensures SecondDiff(c, x, q, at) == {} <==> NothingNew(c, p, q, at)
    {
      FirstSnapshot(c, p, x, at);
      SecondIsSilentIff(c, p, x, q, at);
    }
  }

  lemma {:induction false} SameMembers(added: seq<Event>, events: set<Event>)
    requires forall e :: e in added <==> e in events
    ensures added == [] <==> events == {}
  {
    if added != [] {
      assert added[0] in events;
    }
    if e :| e in events {
      assert e in added;
    }
  }

  lemma {:induction false} EventsAreConfigured(c: Config, w: Watch, p: Poll, n: nat, e: Event) returns (at: nat)
    requires n <= |c.repositories| && e in ScanAll(c, StartScan(w), p.fetch, n).events
    ensures at < n && c.repositories[at] == e.id.repo && Named(c.repositories[at])
  {
    var before, repo := ScanAll(c, StartScan(w), p.fetch, n - 1), c.repositories[n - 1];
    if e in before.events {
      at := EventsAreConfigured(c, w, p, n - 1, e);
    } else {
      at := n - 1;
    }
  }

  /** What a poll of a silently started watcher finds new in one repository. */
  function SecondDiff(c: Config, x: Watch, q: Poll, at: nat): set<Event>
    requires at < |c.repositories|
  {
    var previous := Of(x.observed, c.repositories[at]);
    if previous == map[] then {} else Diff(c.repositories[at], previous, Taken(c, x, q, at), false)
  }

  lemma {:induction false} ScanIsQuietIff(c: Config, x: Watch, q: Poll)
    requires DistinctRepositories(c) && !c.notifyOnStart
    ensures ScanAll(c, StartScan(x), q.fetch, |c.repositories|).events == {}
       <==> forall at: nat | at < |c.repositories| && Named(c.repositories[at]) :: SecondDiff(c, x, q, at) == {}
  {
    var n := |c.repositories|;
    var events := ScanAll(c, StartScan(x), q.fetch, n).events;
    forall at: nat | at < n && Named(c.repositories[at])
      ensures forall e: Event | e.id.repo == c.repositories[at] :: e in events <==> e in SecondDiff(c, x, q, at)
    {
      ScanOf(c, x, q, at, n);
    }
    if e :| e in events {
      var at := EventsAreConfigured(c, x, q, n, e);
      assert e in SecondDiff(c, x, q, at);
    }
    if at: nat :| at < n && Named(c.repositories[at]) && SecondDiff(c, x, q, at) != {} {
      var e :| e in SecondDiff(c, x, q, at);
      assert e.id.repo == c.repositories[at];
    }
  }

  /** A poll of a watcher with nothing to tell leaves it so exactly when it finds nothing. */
  lemma {:induction false} QuietIff(c: Config, x: Watch, q: Poll, y: Watch)
    requires DistinctRepositories(c) && !c.notifyOnStart
    requires x.pending == [] && x.told == {} && Polls(c, x, q, y)
    ensures y.pending == [] && y.told == {}
       <==> forall at: nat | at < |c.repositories| && Named(c.repositories[at]) :: SecondDiff(c, x, q, at) == {}
  {
    var added :| PollsAdding(c, x, q, y, added);
    var events := ScanAll(c, StartScan(x), q.fetch, |c.repositories|).events;
    assert Unknown(events, []) == events;
    SameMembers(added, events);
    ScanIsQuietIff(c, x, q);
    assert [] + added == added;
    if added != [] {
      assert FactOf(added[0]) in Told(added);
    }
  }

  lemma {:induction false} FirstIsQuiet(c: Config, p: Poll, x: Watch)
    requires DistinctRepositories(c) && !c.notifyOnStart && Polls(c, NEW_WATCH, p, x)
    ensures x.pending == [] && x.told == {}
  {
    QuietIff(c, NEW_WATCH, p, x);
  }

  lemma {:induction false} FirstSnapshot(c: Config, p: Poll, x: Watch, at: nat)
    requires DistinctRepositories(c) && at < |c.repositories| && Named(c.repositories[at])
    requires Polls(c, NEW_WATCH, p, x)
    ensures Of(x.observed, c.repositories[at])
        == Current(c.categories, map[], (category: string) => p.fetch(at, category))
  {
    var added :| PollsAdding(c, NEW_WATCH, p, x, added);
    ScanOf(c, NEW_WATCH, p, at, |c.repositories|);
  }

  lemma {:induction false} SecondIsSilentIff(c: Config, p: Poll, x: Watch, q: Poll, at: nat)
    requires at < |c.repositories|
    requires Of(x.observed, c.repositories[at])
        == Current(c.categories, map[], (category: string) => p.fetch(at, category))
    ensures SecondDiff(c, x, q, at) == {} <==> NothingNew(c, p, q, at)
  {
    var previous, current := Of(x.observed, c.repositories[at]), Taken(c, x, q, at);
    if NothingNew(c, p, q, at) {
      forall category, key | category in current && key in current[category]
        ensures !Changed(previous, category, key, current[category][key])
      {
      }
      assert Diff(c.repositories[at], previous, current, false) == {};
    } else {
      var category, key :| category in c.categories && q.fetch(at, category).Some? && key in q.fetch(at, category).value
        && !(p.fetch(at, category).Some? && key in p.fetch(at, category).value
            && p.fetch(at, category).value[key] == q.fetch(at, category).value[key]);
      assert category in previous;
      DiffReports(c.repositories[at], previous, current, false, category, key, current[category][key]);
    }
  }

  // ---- How the queue ends -----------------------------------------------------------

  predicate About(e: Event, repo: string, category: string, key: string) {
    e.id.repo == repo && e.id.category == category && e.id.key == key
  }

  /** The value the last waiting event about an item carries. */
  function LastValue(events: seq<Event>, repo: string, category: string, key: string): Option<Item> {
    if events == [] then None
    else if About(events[|events| - 1], repo, category, key) then Some(events[|events| - 1].id.current)
    else LastValue(events[..|events| - 1], repo, category, key)
  }

  lemma {:induction false} LastValueOfMore(events: seq<Event>, added: seq<Event>, repo: string, category: string,
        key: string, value: Item)
    requires forall e | e in added && About(e, repo, category, key) :: e.id.current == value
    ensures LastValue(events + added, repo, category, key)
         == if exists e | e in added :: About(e, repo, category, key) then Some(value)
            else LastValue(events, repo, category, key)
    decreases |added|
  {
    if added == [] {
      assert events + added == events;
    } else {
      var n := |added| - 1;
      var init, last := added[..n], added[n];
      assert added == init + [last] && events + added == (events + init) + [last];
      assert forall e | e in added :: e in init || e == last;
      LastValueOfMore(events, init, repo, category, key, value);
      assert ((events + init) + [last])[..|events + init|] == events + init;
    }
  }

  /** An item of a repository has changed in a poll. */
  predicate Changes(c: Config, w: Watch, p: Poll, at: nat, category: string, key: string, value: Item)
    requires at < |c.repositories|
  {
    HoldsIn(Taken(c, w, p, at), category, key, value)
        && Changed(Of(w.observed, c.repositories[at]), category, key, value)
  }

  /** After a poll that tells no one, the last waiting event about a changed item carries its
      new value exactly when the event for the change was not waiting already, or the last
      waiting event carried that value before. */
  lemma {:induction false} QueueEndsFreshIff(c: Config, w: Watch, p: Poll, x: Watch, at: nat, category: string,
        key: string, value: Item)
    requires Polls(c, w, p, x) && !AllTake(c, p) && OnlyAt(c, at) && Changes(c, w, p, at, category, key, value)
    requires Of(w.observed, c.repositories[at]) != map[] || c.notifyOnStart
    ensures var repo := c.repositories[at];
      var previous := Of(w.observed, repo);
      var change := EventFor(repo, previous, category, key, value, previous == map[]);
      LastValue(x.pending, repo, category, key) == Some(value) <==>
        change.id !in Ids(w.pending) || LastValue(w.pending, repo, category, key) == Some(value)
  {
    var repo := c.repositories[at];
    var previous, current := Of(w.observed, repo), Taken(c, w, p, at);
    var change := EventFor(repo, previous, category, key, value, previous == map[]);
    var added :| PollsAdding(c, w, p, x, added);
    ScanOf(c, w, p, at, |c.repositories|);
    assert change in Diff(repo, previous, current, previous == map[]);
    forall e | e in added && About(e, repo, category, key)
      ensures e == change
    {
      OneEventEach(repo, previous, current, previous == map[], e, category, key);
    }
    LastValueOfMore(w.pending, added, repo, category, key, value);
    if change.id !in Ids(w.pending) {
      assert change in Unknown(ScanAll(c, StartScan(w), p.fetch, |c.repositories|).events, w.pending);
      assert About(change, repo, category, key);
    }
  }

  lemma {:induction false} OneEventEach(repo: string, previous: Snapshot, current: Snapshot, initial: bool, e: Event,
        category: string, key: string)
    requires e in Diff(repo, previous, current, initial) && About(e, repo, category, key)
    ensures category in current && key in current[category]
    ensures e == EventFor(repo, previous, category, key, current[category][key], initial)
  {
  }

  // ---- A stale queue ----------------------------------------------------------------

  function Single(category: string, key: string, value: Item): Snapshot {
    map[category := map[key := value]]
  }

  /** A poll that finds one item and whose session refuses. */
  function Finds(key: string, value: Item): Poll {
    Poll((i: nat, category: string) => Some(map[key := value]), (i: nat) => Refused)
  }

  /** One more poll of a watcher that watches one item and cannot tell anyone. */
  lemma {:induction false} SingleItemPoll(c: Config, w: Watch, repo: string, category: string, key: string, a: Item,
        b: Item)
    requires c == Config([repo], {category}, false, ["session"]) && Named(repo) && a != b
    requires w.observed == map[repo := Single(category, key, a)]
    ensures var change := Event(EventId(repo, category, key, Updated, b), Some(a));
      var added := if change.id in Ids(w.pending) then [] else [change];
      Polls(c, w, Finds(key, b), w.(observed := map[repo := Single(category, key, b)], pending := w.pending + added))
  {
    var p, change := Finds(key, b), Event(EventId(repo, category, key, Updated, b), Some(a));
    var added := if change.id in Ids(w.pending) then [] else [change];
    var previous, current := Single(category, key, a), Single(category, key, b);
    assert Current({category}, previous, (x: string) => p.fetch(0, x)) == current;
    assert Diff(repo, previous, current, false) == {change} by {
      assert HoldsIn(current, category, key, b);
      assert EventFor(repo, previous, category, key, b, false) == change;
    }
    var s := ScanAll(c, StartScan(w), p.fetch, 1);
    assert s == ScanOne(c, ScanAll(c, StartScan(w), p.fetch, 0), repo, (x: string) => p.fetch(0, x));
    assert s.observed == map[repo := current] && s.events == {change};
    assert !Takes(p.outcomes(0));
    assert PollsAdding(c, w, p, w.(observed := s.observed, pending := w.pending + added), added);
  }

  lemma {:induction false} SingleItemStart(c: Config, repo: string, category: string, key: string, a: Item)
    requires c == Config([repo], {category}, false, ["session"]) && Named(repo)
    ensures var first := map[repo := Single(category, key, a)];
      Polls(c, NEW_WATCH, Finds(key, a), Watch(first, first, [], {Fact(repo, category, key, a)}, {}))
  {
    var p, current := Finds(key, a), Single(category, key, a);
    assert Current({category}, map[], (x: string) => p.fetch(0, x)) == current;
    forall f
      ensures f in FactsOf(repo, current) <==> f == Fact(repo, category, key, a)
    {
      assert category in current && key in current[category] && current[category][key] == a;
    }
    assert FactsOf(repo, current) == {Fact(repo, category, key, a)};
    var s := ScanAll(c, StartScan(NEW_WATCH), p.fetch, 1);
    assert s == ScanOne(c, ScanAll(c, StartScan(NEW_WATCH), p.fetch, 0), repo, (x: string) => p.fetch(0, x));
    assert s.observed == s.delivered == map[repo := current] && s.events == {};
    assert s.baseline == {} + FactsOf(repo, current) == {Fact(repo, category, key, a)};
    var none: seq<Event> := [];
    assert NEW_WATCH.pending + none == none;
    assert PollsAdding(c, NEW_WATCH, p, Watch(s.observed, s.delivered, none, s.baseline, {}), none);
  }

  /** A watcher of one item that was first seen with one value and last with another. */
  function Watching(repo: string, category: string, key: string, first: Item, last: Item, pending: seq<Event>): Watch {
    Watch(map[repo := Single(category, key, last)], map[repo := Single(category, key, first)], pending,
        {Fact(repo, category, key, first)}, {})
  }

  lemma {:induction false} Flip(c: Config, repo: string, category: string, key: string, first: Item, a: Item, b: Item,
        before: seq<Event>, after: seq<Event>)
    requires c == Config([repo], {category}, false, ["session"]) && Named(repo) && a != b
    requires var change := Event(EventId(repo, category, key, Updated, b), Some(a));
      after == if change.id in Ids(before) then before else before + [change]
    ensures Polls(c, Watching(repo, category, key, first, a, before), Finds(key, b),
        Watching(repo, category, key, first, b, after))
  {
    SingleItemPoll(c, Watching(repo, category, key, first, a, before), repo, category, key, a, b);
    assert before + [] == before;
  }

  lemma {:induction false} TwoWaiting(e: Event, f: Event, repo: string, category: string, key: string)
    requires About(f, repo, category, key)
    ensures LastValue([e, f], repo, category, key) == Some(f.id.current)
    ensures Ids([e]) == {e.id} && Ids([e, f]) == {e.id, f.id}
  {
    assert e in [e] && e in [e, f] && f in [e, f];
  }

  function Update(repo: string, category: string, key: string, from: Item, to: Item): Event {
    Event(EventId(repo, category, key, Updated, to), Some(from))
  }

  // ---- A start that is not silent ---------------------------------------------------

  const NO_ANSWER := Poll((i: nat, category: string) => None, (i: nat) => Refused)

  lemma {:induction false} FailedStart(c: Config, repo: string, category: string)
    requires c == Config([repo], {category}, false, ["session"]) && Named(repo)
    ensures var none: Snapshots := map[repo := map[category := map[]]];
      Polls(c, NEW_WATCH, NO_ANSWER, Watch(none, none, [], {}, {}))
  {
    var p, current: Snapshot := NO_ANSWER, map[category := map[]];
    assert Current({category}, map[], (x: string) => p.fetch(0, x)) == current;
    assert FactsOf(repo, current) == {};
    var s := ScanAll(c, StartScan(NEW_WATCH), p.fetch, 1);
    assert s == ScanOne(c, ScanAll(c, StartScan(NEW_WATCH), p.fetch, 0), repo, (x: string) => p.fetch(0, x));
    assert s.observed == s.delivered == map[repo := current] && s.events == {} && s.baseline == {};
    var none: seq<Event> := [];
    assert NEW_WATCH.pending + none == none;
    assert PollsAdding(c, NEW_WATCH, p, Watch(s.observed, s.delivered, none, s.baseline, {}), none);
  }

  lemma {:induction false} FirstItems(c: Config, repo: string, category: string, key: string, value: Item)
    requires c == Config([repo], {category}, false, ["session"]) && Named(repo)
    ensures var none: Snapshots := map[repo := map[category := map[]]];
      var created := Event(EventId(repo, category, key, Created, value), None);
      Polls(c, Watch(none, none, [], {}, {}), Finds(key, value),
          Watch(map[repo := Single(category, key, value)], none, [created], {}, {}))
  {
    var previous: Snapshot := map[category := map[]];
    var w, p, current := Watch(map[repo := previous], map[repo := previous], [], {}, {}), Finds(key, value),
        Single(category, key, value);
    var created := Event(EventId(repo, category, key, Created, value), None);
    assert Current({category}, previous, (x: string) => p.fetch(0, x)) == current;
    assert Diff(repo, previous, current, false) == {created} by {
      assert HoldsIn(current, category, key, value);
      assert EventFor(repo, previous, category, key, value, false) == created;
    }
    var s := ScanAll(c, StartScan(w), p.fetch, 1);
    assert s == ScanOne(c, ScanAll(c, StartScan(w), p.fetch, 0), repo, (x: string) => p.fetch(0, x));
    assert s.observed == map[repo := current] && s.events == {created};
    assert !Takes(p.outcomes(0));
    assert [] + [created] == [created];
    assert PollsAdding(c, w, p, w.(observed := s.observed, pending := [created]), [created]);
  }

  /** The case is real: the first calls of a silent start fail, and the next poll reports an
      item as created that was there all along. */
  lemma {:induction false} FailedStartFloods(repo: string, category: string, key: string, value: Item)
      returns (c: Config, x: Watch, y: Watch)
    requires Named(repo)
    ensures !c.notifyOnStart && Polls(c, NEW_WATCH, NO_ANSWER, x) && Polls(c, x, Finds(key, value), y)
    ensures y.pending == [Event(EventId(repo, category, key, Created, value), None)]
  {
    c := Config([repo], {category}, false, ["session"]);
    var none: Snapshots := map[repo := map[category := map[]]];
    x := Watch(none, none, [], {}, {});
    y := Watch(map[repo := Single(category, key, value)], none,
        [Event(EventId(repo, category, key, Created, value), None)], {}, {});
    FailedStart(c, repo, category);
    FirstItems(c, repo, category, key, value);
  }

  // ---- A value that comes back ------------------------------------------------------

  /** The polls of a run in which an item goes from a to b, back to a and to b again. */
  lemma {:induction false} BackAndForth(c: Config, repo: string, category: string, key: string, a: Item, b: Item)
    requires c == Config([repo], {category}, false, ["session"]) && Named(repo) && a != b
    ensures var toB, toA := Update(repo, category, key, a, b), Update(repo, category, key, b, a);
      && Polls(c, Watching(repo, category, key, a, a, []), Finds(key, b), Watching(repo, category, key, a, b, [toB]))
      && Polls(c, Watching(repo, category, key, a, b, [toB]), Finds(key, a),
          Watching(repo, category, key, a, a, [toB, toA]))
      && Polls(c, Watching(repo, category, key, a, a, [toB, toA]), Finds(key, b),
          Watching(repo, category, key, a, b, [toB, toA]))
  {
    var toB, toA := Update(repo, category, key, a, b), Update(repo, category, key, b, a);
    TwoWaiting(toB, toA, repo, category, key);
    Flip(c, repo, category, key, a, a, b, [], [toB]);
    Flip(c, repo, category, key, a, b, a, [toB], [toB, toA]);
    Flip(c, repo, category, key, a, a, b, [toB, toA], [toB, toA]);
  }

  lemma {:induction false} StaleEnd(repo: string, category: string, key: string, a: Item, b: Item)
    ensures var w := Watching(repo, category, key, a, b,
        [Update(repo, category, key, a, b), Update(repo, category, key, b, a)]);
      Holds(w.observed, Fact(repo, category, key, b)) && LastValue(w.pending, repo, category, key) == Some(a)
  {
    TwoWaiting(Update(repo, category, key, a, b), Update(repo, category, key, b, a), repo, category, key);
  }

  /** A run that leaves the queue stale: an item goes from a to b, back to a and to b again
      while the session refuses. The second change to b is not queued, because the first still
      waits, so the queue ends with a although b is observed. */
  lemma {:induction false} QueueMayEndStale(repo: string, category: string, key: string, a: Item, b: Item)
      returns (states: seq<Watch>, configs: seq<Config>, polls: seq<Poll>)
    requires Named(repo) && a != b
    ensures IsRun(states, configs, polls) && |states| == 5
    ensures Holds(states[4].observed, Fact(repo, category, key, b))
    ensures LastValue(states[4].pending, repo, category, key) == Some(a)
  {
    var c := Config([repo], {category}, false, ["session"]);
    var toB, toA := Update(repo, category, key, a, b), Update(repo, category, key, b, a);
    var w1, w2 := Watching(repo, category, key, a, a, []), Watching(repo, category, key, a, b, [toB]);
    var w3, w4 := Watching(repo, category, key, a, a, [toB, toA]), Watching(repo, category, key, a, b, [toB, toA]);
    var p, q := Finds(key, a), Finds(key, b);
    states, configs, polls := [NEW_WATCH, w1, w2, w3, w4], [c, c, c, c], [p, q, p, q];
    StaleEnd(repo, category, key, a, b);
    assert IsRun(states, configs, polls) by {
      SingleItemStart(c, repo, category, key, a);
      BackAndForth(c, repo, category, key, a, b);
      FourPolls(c, NEW_WATCH, w1, w2, w3, w4, p, q);
    }
  }

  lemma {:induction false} FourPolls(c: Config, w0: Watch, w1: Watch, w2: Watch, w3: Watch, w4: Watch, p: Poll, q: Poll)
    requires w0 == NEW_WATCH
    requires Polls(c, w0, p, w1) && Polls(c, w1, q, w2) && Polls(c, w2, p, w3) && Polls(c, w3, q, w4)
    ensures IsRun([w0, w1, w2, w3, w4], [c, c, c, c], [p, q, p, q])
  {
    var states, configs, polls := [w0, w1, w2, w3, w4], [c, c, c, c], [p, q, p, q];
    forall i | 0 <= i < 4
      ensures Polls(configs[i], states[i], polls[i], states[i + 1])
    {
      assert i == 0 || i == 1 || i == 2 || i == 3;
    }
  }

  // ---- The watcher object -----------------------------------------------------------

  class GitHubWatcher {
    const config: Config
    var observed: Snapshots
    var delivered: Snapshots
    var pending: seq<Event>
    ghost var baseline: set<Fact>
    ghost var told: set<Fact>

    ghost function State(): Watch
      reads this
    {
      Watch(observed, delivered, pending, baseline, told)
    }

    constructor (config: Config)
      ensures this.config == config && State() == NEW_WATCH
    {
      this.config := config;
      observed, delivered, pending, baseline, told := map[], map[], [], {}, {};
    }

    method RepositorySnapshot(previous: Snapshot, fetched: string -> Option<Items>) returns (current: Snapshot)
      ensures current == Current(config.categories, previous, fetched)
      ensures forall category, key, value :: HoldsIn(current, category, key, value) <==>
          && category in config.categories
          && if fetched(category).Some? then
               key in fetched(category).value && fetched(category).value[key] == value
             else HoldsIn(previous, category, key, value)
    {
      current := map[];
      var todo := config.categories;
      while todo != {}
        invariant todo <= config.categories
        invariant current.Keys == config.categories - todo
        invariant forall c | c in current ::
            current[c] == if fetched(c).Some? then fetched(c).value else ItemsOf(previous, c)
      {
        var category :| category in todo;
        var result := fetched(category);
        if result.Some? {
          current := current[category := result.value];
        } else {
          current := current[category := ItemsOf(previous, category)];
        }
        todo := todo - {category};
      }
    }

    method SnapshotDiff(repo: string, previous: Snapshot, current: Snapshot, initial: bool) returns (events: set<Event>)
      ensures events == Diff(repo, previous, current, initial)
    {
      events := {};
      var todo := current.Keys;
      while todo != {}
        invariant todo <= current.Keys
        invariant events == set c, k | c in current.Keys - todo && k in current[c]
            && Changed(previous, c, k, current[c][k]) :: EventFor(repo, previous, c, k, current[c][k], initial)
      {
        var category :| category in todo;
        var found := CategoryDiff(repo, previous, current, category, initial);
        events := events + found;
        todo := todo - {category};
      }
      assert current.Keys - {} == current.Keys;
    }

    method CategoryDiff(repo: string, previous: Snapshot, current: Snapshot, category: string, initial: bool)
        returns (events: set<Event>)
      requires category in current
      ensures events == set k | k in current[category] && Changed(previous, category, k, current[category][k]) ::
          EventFor(repo, previous, category, k, current[category][k], initial)
    {
      events := {};
      var items := current[category];
      var todo := items.Keys;
      while todo != {}
        invariant todo <= items.Keys
        invariant events == set k | k in items.Keys - todo && Changed(previous, category, k, items[k]) ::
            EventFor(repo, previous, category, k, items[k], initial)
      {
        var key :| key in todo;
        if Changed(previous, category, key, items[key]) {
          events := events + {EventFor(repo, previous, category, key, items[key], initial)};
        }
        todo := todo - {key};
      }
    }

    /** The events whose id does not wait already, in some order. */
    method UnknownEvents(found: set<Event>) returns (added: seq<Event>)
      ensures forall e :: e in added <==> e in Unknown(found, pending)
    {
      added := [];
      var todo := found;
      while todo != {}
        invariant todo <= found
        invariant forall e :: e in added <==> e in Unknown(found - todo, pending)
      {
        var e :| e in todo;
        if e.id !in Ids(pending) {
          added := added + [e];
        }
        todo := todo - {e};
      }
      assert found - {} == found;
    }

    /** Submits what is pending to one session after the other, up to the first that does not
        take it. */
    method SubmitToSessions(outcomes: nat -> Outcome) returns (all: bool)
      ensures all <==> forall i :: 0 <= i < |config.sessions| ==> Takes(outcomes(i))
    {
      var i := 0;
      while i < |config.sessions|
        invariant 0 <= i <= |config.sessions|
        invariant forall k :: 0 <= k < i ==> Takes(outcomes(k))
      {
        if !Takes(outcomes(i)) {
          return false;
        }
        i := i + 1;
      }
      return true;
    }

    /** Observes every configured repository. */
    method ScanRepositories(p: Poll) returns (found: set<Event>)
      modifies this`observed, this`delivered, this`baseline
      ensures Scan(observed, delivered, found, baseline)
          == ScanAll(config, StartScan(old(State())), p.fetch, |config.repositories|)
    {
      found := {};
      ghost var start := StartScan(State());
      var i := 0;
      while i < |config.repositories|
        invariant 0 <= i <= |config.repositories|
        invariant Scan(observed, delivered, found, baseline) == ScanAll(config, start, p.fetch, i)
      {
        var events := ScanRepository(config.repositories[i], (category: string) => p.fetch(i, category), found);
        found := events;
        i := i + 1;
      }
    }

    method ScanRepository(repo: string, fetched: string -> Option<Items>, found: set<Event>)
        returns (events: set<Event>)
      modifies this`observed, this`delivered, this`baseline
      ensures Scan(observed, delivered, events, baseline)
          == ScanOne(config, Scan(old(observed), old(delivered), found, old(baseline)), repo, fetched)
    {
      events := found;
      if !Named(repo) {
        return;
      }
      var previous := Of(observed, repo);
      var current := RepositorySnapshot(previous, fetched);
      observed := observed[repo := current];
      if previous == map[] {
        if config.notifyOnStart {
          var initial := SnapshotDiff(repo, previous, current, true);
          events := events + initial;
        } else {
          delivered := delivered[repo := current];
          baseline := baseline + FactsOf(repo, current);
        }
      } else {
        var changes := SnapshotDiff(repo, previous, current, false);
        events := events + changes;
      }
    }

    method PollOnce(p: Poll) returns (found: set<Event>)
      modifies this
      ensures Polls(config, old(State()), p, State())
      ensures found == ScanAll(config, StartScan(old(State())), p.fetch, |config.repositories|).events
      ensures Covered(old(State())) && Truthful(old(delivered), old(baseline), old(told)) ==>
        Covered(State()) && Truthful(delivered, baseline, told)
    {
      ghost var before := State();
      found := ScanRepositories(p);
      var added := UnknownEvents(found);
      pending := pending + added;
      if pending != [] && config.sessions != [] {
        var all := SubmitToSessions(p.outcomes);
        if all {
          told := told + Told(pending);
          delivered := observed;
          pending := [];
        }
      }
      assert PollsAdding(config, before, p, State(), added);
      if Covered(before) && Truthful(before.delivered, before.baseline, before.told) {
        PollKeeps(config, before, p, State());
      }
    }
  }
}
