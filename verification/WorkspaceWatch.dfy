/** Watching files: a change is reported once it has been seen unchanged for long enough. The
    polling machine is proved to compute what the history of observations says. */
module WorkspaceWatch {
  import opened Options

  type Signature = string

  datatype Config = Config(settle: real, pollInterval: real, missingInterval: real)

  /** How long a path that could not be read is left alone. */
  function Pause(c: Config): real {
    if c.pollInterval > c.missingInterval then c.pollInterval else c.missingInterval
  }

  /** It is left alone for both intervals, and no longer than one of them. */
  lemma {:induction false} PauseIsLonger(c: Config)
    ensures Pause(c) >= c.pollInterval && Pause(c) >= c.missingInterval
    ensures Pause(c) == c.pollInterval || Pause(c) == c.missingInterval
  {
  }

  /** One poll of one path: its time, and the signature the file has then, if it can be read. */
  datatype Poll = Poll(now: real, seen: Option<Signature>)

  // ---- What the history says --------------------------------------------------------

  /** The last poll before the n-th that looked at the file. */
  function LastAttempt(c: Config, h: seq<Poll>, n: nat): (k: Option<nat>)
    requires n <= |h|
    ensures k.Some? ==> k.value < n
    decreases n, 0
  {
    if n == 0 then None
    else if Attempts(c, h, n - 1) then Some(n - 1)
    else LastAttempt(c, h, n - 1)
  }

  /** The n-th poll looks at the file: not within the pause after a failed attempt. */
  predicate Attempts(c: Config, h: seq<Poll>, n: nat)
    requires n < |h|
    decreases n, 1
  {
    var last := LastAttempt(c, h, n);
    h[n].now >= if last.Some? && h[last.value].seen.None? then h[last.value].now + Pause(c) else 0.0
  }

  predicate Seen(c: Config, h: seq<Poll>, n: nat)
    requires n < |h|
  {
    h[n].seen.Some? && Attempts(c, h, n)
  }

  /** Poll s is the last sighting before poll n. */
  ghost predicate LastSeen(c: Config, h: seq<Poll>, s: nat, n: nat)
    requires n <= |h|
  {
    s < n && Seen(c, h, s) && forall k: nat :: s < k < n ==> !Seen(c, h, k)
  }

  /** Since poll s, and not before, every sighting up to poll n shows the same signature. */
  ghost predicate RunStarts(c: Config, h: seq<Poll>, s: nat, n: nat)
    requires n < |h|
  {
    && s <= n && Seen(c, h, s)
    && (forall k: nat :: s <= k <= n && Seen(c, h, k) ==> h[k].seen == h[n].seen)
    && (forall k: nat :: LastSeen(c, h, k, s) ==> h[k].seen != h[s].seen)
  }

  /** The signature in force before poll n: the first one seen, then each one reported. */
  ghost function Baseline(c: Config, h: seq<Poll>, start: Option<Signature>, n: nat): Option<Signature>
    requires n <= |h|
    decreases n, 0
  {
    if n == 0 then start
    else if Reported(c, h, start, n - 1) || (Seen(c, h, n - 1) && Baseline(c, h, start, n - 1).None?) then h[n - 1].seen
    else Baseline(c, h, start, n - 1)
  }

  /** Poll n reports: the file differs from the baseline, and the current run of equal
      sightings began long enough ago. */
  ghost predicate Reported(c: Config, h: seq<Poll>, start: Option<Signature>, n: nat)
    requires n < |h|
    decreases n, 1
  {
    && Seen(c, h, n)
    && Baseline(c, h, start, n).Some? && h[n].seen != Baseline(c, h, start, n)
    && exists s: nat :: RunStarts(c, h, s, n) && h[n].now - h[s].now >= c.settle
  }

  // ---- The machine ------------------------------------------------------------------

  datatype Pending = Pending(signature: Signature, firstSeen: real)

  /** What is kept for one path. */
  datatype Path = Path(signature: Option<Signature>, pending: Option<Pending>, missingUntil: Option<real>)

  datatype Stepped = Stepped(path: Path, reported: bool)

  function Unread(c: Config, p: Path, now: real): Path {
    p.(missingUntil := Some(now + Pause(c)))
  }

  function Settled(p: Path, signature: Signature): Path {
    Path(Some(signature), None, p.missingUntil)
  }

  /** A sighting that differs from the signature in force. */
  function OnDifference(c: Config, p: Path, now: real, signature: Signature): Stepped {
    var known := p.pending.Some? && p.pending.value.signature == signature;
    var candidate := if known then p.pending.value else Pending(signature, now);
    if (!known && c.settle > 0.0) || now - candidate.firstSeen < c.settle
    then Stepped(p.(pending := Some(candidate)), false)
    else Stepped(Settled(p, signature), true)
  }

  function StepPath(c: Config, p: Path, poll: Poll): Stepped {
    if poll.now < (if p.missingUntil.Some? then p.missingUntil.value else 0.0) then Stepped(p, false)
    else if poll.seen.None? then Stepped(Unread(c, p, poll.now), false)
    else OnSight(c, p.(missingUntil := None), poll.now, poll.seen.value)
  }

  function OnSight(c: Config, p: Path, now: real, signature: Signature): Stepped {
    if p.signature.None? then Stepped(Settled(p, signature), false)
    else if p.signature.value == signature then Stepped(p.(pending := None), false)
    else OnDifference(c, p, now, signature)
  }

  function Machine(c: Config, h: seq<Poll>, start: Option<Signature>, n: nat): Path
    requires n <= |h|
  {
    if n == 0 then Path(start, None, None) else StepPath(c, Machine(c, h, start, n - 1), h[n - 1]).path
  }

  // ---- Refinement -------------------------------------------------------------------

  /** The pause matches the last attempt. */
  ghost predicate PauseMatches(c: Config, h: seq<Poll>, n: nat, p: Path)
    requires n <= |h|
  {
    var last := LastAttempt(c, h, n);
    p.missingUntil == if last.Some? && h[last.value].seen.None? then Some(h[last.value].now + Pause(c)) else None
  }

  /** What is pending is the run of the last sighting, when that differs from the baseline. */
  ghost predicate PendingMatches(c: Config, h: seq<Poll>, n: nat, p: Path)
    requires n <= |h|
  {
    && (p.signature.None? ==> p.pending.None?)
    && (p.pending.None? ==> forall k: nat :: LastSeen(c, h, k, n) ==> h[k].seen == p.signature)
    && (p.pending.Some? ==>
         exists k: nat, s: nat :: LastSeen(c, h, k, n) && RunStarts(c, h, s, k)
           && h[k].seen == Some(p.pending.value.signature) && h[k].seen != p.signature
           && p.pending.value.firstSeen == h[s].now)
  }

  lemma {:induction false} HasLastSeen(c: Config, h: seq<Poll>, s: nat, n: nat) returns (k: nat)
    requires s < n <= |h| && Seen(c, h, s)
    ensures s <= k && LastSeen(c, h, k, n)
  {
    if Seen(c, h, n - 1) {
      k := n - 1;
    } else {
      k := HasLastSeen(c, h, s, n - 1);
    }
  }

  lemma {:induction false} LastSeenUnique(c: Config, h: seq<Poll>, k: nat, l: nat, n: nat)
    requires n <= |h| && LastSeen(c, h, k, n) && LastSeen(c, h, l, n)
    ensures k == l
  {
  }

  /** A run has one start. */
  lemma {:induction false} RunStartUnique(c: Config, h: seq<Poll>, s: nat, t: nat, n: nat)
    requires n < |h| && RunStarts(c, h, s, n) && RunStarts(c, h, t, n)
    ensures s == t
  {
    if s < t {
      var k := HasLastSeen(c, h, s, t);
    } else if t < s {
      var k := HasLastSeen(c, h, t, s);
    }
  }

  /** A sighting equal to the last one continues its run. */
  lemma {:induction false} RunContinues(c: Config, h: seq<Poll>, s: nat, k: nat, n: nat)
    requires n < |h| && Seen(c, h, n) && LastSeen(c, h, k, n) && h[k].seen == h[n].seen && RunStarts(c, h, s, k)
    ensures RunStarts(c, h, s, n)
  {
  }

  /** Any other sighting starts one. */
  lemma {:induction false} RunBegins(c: Config, h: seq<Poll>, n: nat)
    requires n < |h| && Seen(c, h, n) && forall k: nat :: LastSeen(c, h, k, n) ==> h[k].seen != h[n].seen
    ensures RunStarts(c, h, n, n)
  {
  }

  /** Where the run of a sighting that differs from the baseline began, and that the machine
      knows it. */
  lemma {:induction false} CandidateIsRunStart(c: Config, h: seq<Poll>, n: nat, p: Path) returns (s: nat)
    requires n < |h| && Seen(c, h, n) && PendingMatches(c, h, n, p)
    requires p.signature.Some? && h[n].seen != p.signature
    ensures RunStarts(c, h, s, n)
    ensures var known := p.pending.Some? && Some(p.pending.value.signature) == h[n].seen;
      h[s].now == (if known then p.pending.value.firstSeen else h[n].now)
  {
    var known := p.pending.Some? && Some(p.pending.value.signature) == h[n].seen;
    if p.pending.Some? {
      var k: nat, t: nat :| LastSeen(c, h, k, n) && RunStarts(c, h, t, k)
        && h[k].seen == Some(p.pending.value.signature) && h[k].seen != p.signature
            && p.pending.value.firstSeen == h[t].now;
      if known {
        RunContinues(c, h, t, k, n);
        return t;
      }
      forall l: nat | LastSeen(c, h, l, n)
        ensures h[l].seen != h[n].seen
      {
        LastSeenUnique(c, h, k, l, n);
      }
    }
    RunBegins(c, h, n);
    return n;
  }

  /** A poll that skips the file or cannot read it changes nothing else. */
  lemma {:induction false} QuietPoll(c: Config, h: seq<Poll>, n: nat, p: Path, q: Path)
    requires n < |h| && !Seen(c, h, n) && PendingMatches(c, h, n, p)
    requires q.signature == p.signature && q.pending == p.pending
    ensures PendingMatches(c, h, n + 1, q)
  {
    forall k: nat | LastSeen(c, h, k, n + 1)
      ensures LastSeen(c, h, k, n)
    {
    }
    forall k: nat | LastSeen(c, h, k, n)
      ensures LastSeen(c, h, k, n + 1)
    {
    }
  }

  /** After a sighting that is now the baseline nothing is pending. */
  lemma {:induction false} NothingPending(c: Config, h: seq<Poll>, n: nat, q: Path)
    requires n < |h| && Seen(c, h, n) && q.signature == h[n].seen && q.pending.None?
    ensures PendingMatches(c, h, n + 1, q)
  {
    assert LastSeen(c, h, n, n + 1);
    forall k: nat | LastSeen(c, h, k, n + 1)
      ensures h[k].seen == q.signature
    {
      LastSeenUnique(c, h, k, n, n + 1);
    }
  }

  lemma {:induction false} ReportedIff(c: Config, h: seq<Poll>, start: Option<Signature>, n: nat, s: nat)
    requires n < |h| && Seen(c, h, n) && RunStarts(c, h, s, n)
    requires Baseline(c, h, start, n).Some? && h[n].seen != Baseline(c, h, start, n)
    ensures Reported(c, h, start, n) <==> h[n].now - h[s].now >= c.settle
  {
    forall t: nat | RunStarts(c, h, t, n)
      ensures t == s
    {
      RunStartUnique(c, h, s, t, n);
    }
  }

  /** A sighting that differs from the baseline. */
  lemma {:induction false} DifferenceRefines(c: Config, h: seq<Poll>, start: Option<Signature>, n: nat, p: Path,
        q: Path)
    requires n < |h| && Seen(c, h, n) && p.signature == Baseline(c, h, start, n) && PendingMatches(c, h, n, p)
    requires p.signature.Some? && h[n].seen != p.signature
    requires q.signature == p.signature && q.pending == p.pending
    ensures var next := OnDifference(c, q, h[n].now, h[n].seen.value);
      && next.reported == Reported(c, h, start, n)
      && next.path.signature == Baseline(c, h, start, n + 1)
      && next.path.missingUntil == q.missingUntil
      && PendingMatches(c, h, n + 1, next.path)
  {
    var next := OnDifference(c, q, h[n].now, h[n].seen.value);
    var s := CandidateIsRunStart(c, h, n, p);
    ReportedIff(c, h, start, n, s);
    assert next.reported <==> h[n].now - h[s].now >= c.settle;
    if next.reported {
      NothingPending(c, h, n, next.path);
    } else {
      assert LastSeen(c, h, n, n + 1);
      assert next.path.pending.value.firstSeen == h[s].now;
    }
  }

  /** The machine looks at the file when the history says so, and keeps the pause right. */
  lemma {:induction false} PauseRefines(c: Config, h: seq<Poll>, n: nat, p: Path)
    requires n < |h| && PauseMatches(c, h, n, p)
    ensures PauseMatches(c, h, n + 1, StepPath(c, p, h[n]).path)
    ensures !Attempts(c, h, n) ==> StepPath(c, p, h[n]) == Stepped(p, false)
    ensures Attempts(c, h, n) && h[n].seen.None? ==> StepPath(c, p, h[n]) == Stepped(Unread(c, p, h[n].now), false)
    ensures Seen(c, h, n) ==> StepPath(c, p, h[n]) == OnSight(c, p.(missingUntil := None), h[n].now, h[n].seen.value)
  {
  }

  /** One poll of the machine does what the history says. */
  lemma {:induction false} StepRefines(c: Config, h: seq<Poll>, start: Option<Signature>, n: nat, p: Path)
    requires n < |h| && p.signature == Baseline(c, h, start, n)
    requires PauseMatches(c, h, n, p) && PendingMatches(c, h, n, p)
    ensures var next := StepPath(c, p, h[n]);
      && next.reported == Reported(c, h, start, n)
      && next.path.signature == Baseline(c, h, start, n + 1)
      && PauseMatches(c, h, n + 1, next.path) && PendingMatches(c, h, n + 1, next.path)
  {
    var next := StepPath(c, p, h[n]);
    PauseRefines(c, h, n, p);
    if !Seen(c, h, n) {
      QuietPoll(c, h, n, p, next.path);
    } else if p.signature.None? || p.signature == h[n].seen {
      NothingPending(c, h, n, next.path);
    } else {
      DifferenceRefines(c, h, start, n, p, p.(missingUntil := None));
    }
  }

  /** For every history, whatever was skipped or could not be read: after each poll the
      machine holds the baseline the history defines, and the poll reports exactly when the
      file differs from it and has been seen the same for at least the settling time. */
  lemma {:induction false} MachineRefinesHistory(c: Config, h: seq<Poll>, start: Option<Signature>, n: nat)
    requires n <= |h|
    ensures var p := Machine(c, h, start, n);
      && p.signature == Baseline(c, h, start, n)
      && PauseMatches(c, h, n, p) && PendingMatches(c, h, n, p)
      && (n < |h| ==> StepPath(c, p, h[n]).reported == Reported(c, h, start, n))
  {
    if n > 0 {
      MachineRefinesHistory(c, h, start, n - 1);
      StepRefines(c, h, start, n - 1, Machine(c, h, start, n - 1));
    }
    if n < |h| {
      StepRefines(c, h, start, n, Machine(c, h, start, n));
    }
  }

  // ---- The watcher object -----------------------------------------------------------

  function Lookup<K, V>(m: map<K, V>, k: K): Option<V> {
    if k in m then Some(m[k]) else None
  }

  /** What is kept for all paths. */
  datatype Kept = Kept(signatures: map<string, Signature>, pending: map<string, Pending>,
      missingUntil: map<string, real>)
  {
    function At(path: string): Path {
      Path(Lookup(signatures, path), Lookup(pending, path), Lookup(missingUntil, path))
    }
  }

  /** What becomes of one path in the first n looks of a poll: each look at it is a step. */
  function Steps(c: Config, p: Path, paths: seq<string>, path: string, now: real, look: nat -> Option<Signature>,
        n: nat): Path
    requires n <= |paths|
  {
    if n == 0 then p
    else
      var q := Steps(c, p, paths, path, now, look, n - 1);
      if paths[n - 1] == path then StepPath(c, q, Poll(now, look(n - 1))).path else q
  }

  /** The paths reported by the first n looks of a poll, in order. */
  function Reports(c: Config, k: Kept, paths: seq<string>, now: real, look: nat -> Option<Signature>,
        n: nat): seq<string>
    requires n <= |paths|
  {
    if n == 0 then []
    else
      var path := paths[n - 1];
      var q := Steps(c, k.At(path), paths, path, now, look, n - 1);
      Reports(c, k, paths, now, look, n - 1) + if StepPath(c, q, Poll(now, look(n - 1))).reported then [path] else []
  }

  lemma {:induction false} StepsElsewhere(c: Config, p: Path, paths: seq<string>, path: string, now: real,
        look: nat -> Option<Signature>, n: nat)
    requires n <= |paths| && forall i :: 0 <= i < n ==> paths[i] != path
    ensures Steps(c, p, paths, path, now, look, n) == p
  {
    if n > 0 {
      StepsElsewhere(c, p, paths, path, now, look, n - 1);
    }
  }

  /** A path that is configured once takes one step and is reported by it or not at all; one
      that is not configured takes none. */
  lemma {:induction false} OneStepEach(c: Config, k: Kept, paths: seq<string>, i: nat, now: real,
        look: nat -> Option<Signature>, n: nat)
    requires i < n <= |paths| && forall j :: 0 <= j < |paths| && j != i ==> paths[j] != paths[i]
    ensures var next := StepPath(c, k.At(paths[i]), Poll(now, look(i)));
      && Steps(c, k.At(paths[i]), paths, paths[i], now, look, n) == next.path
      && (paths[i] in Reports(c, k, paths, now, look, n) <==> next.reported)
  {
    if n - 1 == i {
      StepsElsewhere(c, k.At(paths[i]), paths, paths[i], now, look, i);
      NotReported(c, k, paths, paths[i], now, look, i);
    } else {
      OneStepEach(c, k, paths, i, now, look, n - 1);
    }
  }

  lemma {:induction false} NotReported(c: Config, k: Kept, paths: seq<string>, path: string, now: real,
        look: nat -> Option<Signature>, n: nat)
    requires n <= |paths| && forall i :: 0 <= i < n ==> paths[i] != path
    ensures path !in Reports(c, k, paths, now, look, n)
  {
    if n > 0 {
      NotReported(c, k, paths, path, now, look, n - 1);
    }
  }

  class WorkspaceWatcher {
    const config: Config
    const paths: seq<string>
    var signatures: map<string, Signature>
    var pending: map<string, Pending>
    var missingUntil: map<string, real>

    function All(): Kept
      reads this
    {
      Kept(signatures, pending, missingUntil)
    }

    function PathState(path: string): Path
      reads this
    {
      All().At(path)
    }

    constructor (config: Config, paths: seq<string>, stored: map<string, Signature>)
      ensures this.config == config && this.paths == paths
      ensures forall path :: PathState(path) == Path(Lookup(stored, path), None, None)
    {
      this.config, this.paths := config, paths;
      signatures, pending, missingUntil := stored, map[], map[];
    }

    method PollPath(path: string, now: real, seen: Option<Signature>) returns (reported: bool)
      modifies this
      ensures StepPath(config, old(PathState(path)), Poll(now, seen)) == Stepped(PathState(path), reported)
      ensures forall other :: other != path ==> PathState(other) == old(PathState(other))
    {
      if now < (if path in missingUntil then missingUntil[path] else 0.0) {
        return false;
      }
      if seen.None? {
        missingUntil := missingUntil[path := now + Pause(config)];
        return false;
      }
      var signature := seen.value;
      missingUntil := missingUntil - {path};
      if path !in signatures {
        signatures := signatures[path := signature];
        pending := pending - {path};
        return false;
      }
      if signature == signatures[path] {
        pending := pending - {path};
        return false;
      }
      if path !in pending || pending[path].signature != signature {
        pending := pending[path := Pending(signature, now)];
        if config.settle > 0.0 {
          return false;
        }
      }
      if now - pending[path].firstSeen < config.settle {
        return false;
      }
      signatures := signatures[path := signature];
      pending := pending - {path};
      return true;
    }

    /** Looks at every configured path in turn and reports those whose change has settled. */
    method PollOnce(now: real, look: nat -> Option<Signature>) returns (changed: seq<string>)
      modifies this
      ensures forall path :: PathState(path) == Steps(config, old(PathState(path)), paths, path, now, look, |paths|)
      ensures changed == Reports(config, old(All()), paths, now, look, |paths|)
    {
      changed := [];
      for i := 0 to |paths|
        invariant forall path :: PathState(path) == Steps(config, old(PathState(path)), paths, path, now, look, i)
        invariant changed == Reports(config, old(All()), paths, now, look, i)
      {
        var reported := PollPath(paths[i], now, look(i));
        if reported {
          changed := changed + [paths[i]];
        }
      }
    }
  }
}
