/** Joins, cancellations, reaper ticks and the opening of an attempt, each from its first test to
    its last counter update, when only its own process steps: what has become of the players, the
    pool, the matches and every counter. */
module Requests {
  import opened Basics
  import opened Records
  import opened Relaxation
  import opened Protocol
  import opened Shape
  import opened Conservation
  import opened Alone

  /** Matches and settings are as they were. */
  ghost predicate MatchesKept(s: State, t: State) {
    t.log == s.log && t.history == s.history && t.historyLimit == s.historyLimit && t.config == s.config
  }

  /** Counter `a` has gained `m`, counter `b` has gained `n`, and no other has changed. */
  ghost predicate Gained(s: State, t: State, a: Counter, m: int, b: Counter, n: int)
    requires Typed(s) && Typed(t)
  {
    forall c: Counter ::
      t.metrics[c] == s.metrics[c] + (if c == a then m else 0) + (if c == b then n else 0)
  }

  /** A run of the process's own steps that ends with the process idle. */
  ghost predicate Finishes(s: State, acts: seq<Action>, d: Assumptions, p: Pid) {
    && Run(s, acts, d) && OwnSteps(acts, p) && p < |s.procs|
    && p < |Final(s, acts, d).procs| && Final(s, acts, d).procs[p].pc.Idle?
  }

  /** One step of such a run. */
  lemma Peel(s: State, acts: seq<Action>, d: Assumptions, p: Pid)
    requires Finishes(s, acts, d, p)
    ensures s.procs[p].pc.Idle? <==> acts == []
    ensures acts != [] ==>
      && !s.procs[p].pc.Scanning? && |ExecStep(s, p, acts[0].now).procs| == |s.procs|
      && Finishes(ExecStep(s, p, acts[0].now), acts[1..], d, p)
      && Final(s, acts, d) == Final(ExecStep(s, p, acts[0].now), acts[1..], d)
  {
    if acts != [] {
      OwnStep(s, acts, d, p);
      ProgressStep(s, p, acts[0].now);
    }
  }

  /** Pending counter updates are all performed, each once, and nothing else is done. */
  lemma {:induction false} CountsOut(s: State, acts: seq<Action>, d: Assumptions, p: Pid)
    requires Finishes(s, acts, d, p) && s.procs[p].pc.Counting?
    ensures var t := Final(s, acts, d);
      && t.players == s.players && t.primary == s.primary && MatchesKept(s, t)
      && forall c: Counter :: t.metrics[c] == s.metrics[c] + BumpTotal(c, s.procs[p].pc.pending)
    decreases |acts|
  {
    Peel(s, acts, d, p);
    var u := CountStep(s, p);
    var pending := s.procs[p].pc.pending;
    if pending == [] {
      Peel(u, acts[1..], d, p);
    } else {
      CountsOut(u, acts[1..], d, p);
      forall c: Counter
        ensures u.metrics[c] + BumpTotal(c, pending[1..]) == s.metrics[c] + BumpTotal(c, pending)
      {
        BumpsLeft(s.metrics, pending, c);
      }
    }
  }

  lemma CountsTwo(s: State, acts: seq<Action>, d: Assumptions, p: Pid, a: Bump, b: Bump)
    requires Finishes(s, acts, d, p) && s.procs[p].pc == Counting([a, b])
    ensures var t := Final(s, acts, d);
      && t.players == s.players && t.primary == s.primary && MatchesKept(s, t)
      && Gained(s, t, a.counter, a.amount, b.counter, b.amount)
  {
    CountsOut(s, acts, d, p);
    forall c: Counter
      ensures BumpTotal(c, [a, b])
              == (if c == a.counter then a.amount else 0) + (if c == b.counter then b.amount else 0)
    {
      BumpTwo(c, a, b);
    }
  }

  lemma CountsOne(s: State, acts: seq<Action>, d: Assumptions, p: Pid, b: Bump)
    requires Finishes(s, acts, d, p) && s.procs[p].pc == Counting([b])
    ensures var t := Final(s, acts, d);
      && t.players == s.players && t.primary == s.primary && MatchesKept(s, t)
      && Gained(s, t, b.counter, b.amount, b.counter, 0)
  {
    CountsOut(s, acts, d, p);
    forall c: Counter
      ensures BumpTotal(c, [b]) == if c == b.counter then b.amount else 0
    {
      BumpOne(c, b.counter, b.amount);
    }
  }

  // ---- Joining -----------------------------------------------------------------------------

  /** One waiting, unclaimed player more, in the pool under its id; one more counted as enqueued
      and as queued. */
  ghost predicate Joined(s: State, t: State, id: Uuid, rating: nat, now: nat)
    requires Typed(s) && Typed(t)
  {
    && MatchesKept(s, t) && |t.players| == |s.players| + 1 && t.players[..|s.players|] == s.players
    && var r := t.players[|s.players|];
       && r.id == id && r.rating == rating && r.join == now && Unclaimed(r) && r.matchedAt == None
       && t.primary == s.primary[id := |s.players|]
       && Gained(s, t, Enqueued, 1, QueueSize, 1)
  }

  lemma InsertRun(s: State, acts: seq<Action>, d: Assumptions, p: Pid)
    requires Finishes(s, acts, d, p) && s.procs[p].pc.Enqueuing?
    ensures acts != [] && Joined(s, Final(s, acts, d), s.procs[p].pc.id, s.procs[p].pc.rating, acts[0].now)
  {
    Peel(s, acts, d, p);
    var u := InsertStep(s, p, acts[0].now);
    CountsTwo(u, acts[1..], d, p, Bump(Enqueued, 1), Bump(QueueSize, 1));
  }

  /** A join is refused for a rating off the scale or an id in the pool, and then leaves no
      trace; otherwise, when it is over, exactly one fresh waiting player has been added. */
  lemma EnqueueAlone(s: State, p: Pid, id: Uuid, rating: nat, acts: seq<Action>, d: Assumptions)
    requires Typed(s) && Enabled(s, Begin(p, Enqueue(id, rating)))
    requires Finishes(ExecBegin(s, p, Enqueue(id, rating)), acts, d, p)
    ensures var t := Final(ExecBegin(s, p, Enqueue(id, rating)), acts, d);
      if rating > 3000 || id in s.primary then t == s
      else acts != [] && Joined(s, t, id, rating, acts[0].now)
  {
    var u := ExecBegin(s, p, Enqueue(id, rating));
    Peel(u, acts, d, p);
    if u.procs[p].pc.Enqueuing? {
      InsertRun(u, acts, d, p);
    }
  }

  // ---- Cancelling --------------------------------------------------------------------------

  /** An evicted player is unlinked, and both counters are due. */
  lemma UnlinkNext(s: State, p: Pid)
    requires Typed(s) && p < |s.procs| && s.procs[p].pc.Evicting?
    ensures var u, r := UnlinkStep(s, p), s.procs[p].pc.ref;
      && r < |s.players| && u.players == s.players && u.primary == s.primary - {s.players[r].id}
      && u.metrics == s.metrics && MatchesKept(s, u) && |u.procs| == |s.procs|
      && u.procs[p].pc == Counting([Bump(QueueSize, -1), Bump(Cancelled, 1)])
  {
    assert PcTyped(s.players, s.procs[p].pc);
  }

  lemma UnlinkRun(s: State, acts: seq<Action>, d: Assumptions, p: Pid)
    requires Finishes(s, acts, d, p) && s.procs[p].pc.Evicting?
    ensures var t, r := Final(s, acts, d), s.procs[p].pc.ref;
      && r < |s.players| && t.players == s.players && t.primary == s.primary - {s.players[r].id}
      && MatchesKept(s, t) && Gained(s, t, QueueSize, -1, Cancelled, 1)
  {
    Peel(s, acts, d, p);
    UnlinkNext(s, p);
    var u := ExecStep(s, p, acts[0].now);
    assert u == UnlinkStep(s, p);
    hide UnlinkStep;
    hide ExecStep;
    CountsTwo(u, acts[1..], d, p, Bump(QueueSize, -1), Bump(Cancelled, 1));
    hide Typed;
  }

  /** Player `r` is evicted and its id is out of the pool; one cancellation is counted, and one
      queued player less. */
  ghost predicate Left(s: State, t: State, r: Ref)
    requires Typed(s) && Typed(t)
  {
    && r < |s.players| && t.players == s.players[r := s.players[r].(state := Evicted)]
    && t.primary == s.primary - {s.players[r].id}
    && MatchesKept(s, t) && Gained(s, t, QueueSize, -1, Cancelled, 1)
  }

  /** Players, pool, matches and counters are as they were. */
  ghost predicate Unmoved(s: State, t: State) {
    t.players == s.players && t.primary == s.primary && t.metrics == s.metrics && MatchesKept(s, t)
  }

  lemma EvictRun(s: State, acts: seq<Action>, d: Assumptions, p: Pid)
    requires Finishes(s, acts, d, p) && s.procs[p].pc.Cancelling? && s.procs[p].pc.ref < |s.players|
    ensures var t, r := Final(s, acts, d), s.procs[p].pc.ref;
      if s.players[r].state == Waiting then Left(s, t, r) else Unmoved(s, t)
  {
    Peel(s, acts, d, p);
    var u := EvictStep(s, p);
    if u.procs[p].pc.Evicting? {
      UnlinkRun(u, acts[1..], d, p);
    } else {
      Peel(u, acts[1..], d, p);
    }
  }

  /** A cancellation takes effect exactly if the id is in the pool and its player is waiting. Then
      exactly that player is evicted and removed; otherwise nothing has changed. */
  lemma CancelAlone(s: State, p: Pid, id: Uuid, acts: seq<Action>, d: Assumptions)
    requires Typed(s) && Enabled(s, Begin(p, Cancel(id)))
    requires Finishes(ExecBegin(s, p, Cancel(id)), acts, d, p)
    ensures var t := Final(ExecBegin(s, p, Cancel(id)), acts, d);
      if id in s.primary && s.players[s.primary[id]].state == Waiting then Left(s, t, s.primary[id])
      else Unmoved(s, t)
  {
    var u := ExecBegin(s, p, Cancel(id));
    Peel(u, acts, d, p);
    if u.procs[p].pc.Cancelling? {
      EvictRun(u, acts, d, p);
    }
  }

  // ---- A reaper tick -----------------------------------------------------------------------

  /** The claim is stamped and older than the timeout. */
  predicate Overdue(r: Rec, nowMs: nat, timeoutMs: nat) {
    r.state == Claimed && r.claimTs > 0 && nowMs > r.claimTs + timeoutMs
  }

  /** The listed players with an overdue claim. */
  ghost function OverdueAmong(players: seq<Rec>, listed: seq<Ref>, nowMs: nat, timeoutMs: nat): set<Ref> {
    set x | x in listed && x < |players| && Overdue(players[x], nowMs, timeoutMs)
  }

  /** Each listed player with an overdue claim is waiting again and unclaimed, and everybody else
      is as before. */
  ghost predicate Swept(before: seq<Rec>, after: seq<Rec>, listed: seq<Ref>, nowMs: nat, timeoutMs: nat) {
    && |after| == |before|
    && forall x :: 0 <= x < |before| ==>
         after[x] == if x in OverdueAmong(before, listed, nowMs, timeoutMs)
                     then before[x].(state := Waiting, claimedBy := 0, claimTs := 0) else before[x]
  }

  lemma SweepOne(before: seq<Rec>, after: seq<Rec>, listed: seq<Ref>, nowMs: nat, timeoutMs: nat)
    requires listed != [] && listed[0] < |before|
    requires after == before[listed[0] := Reap(before[listed[0]], nowMs, timeoutMs)]
    ensures var stale, left := OverdueAmong(before, listed, nowMs, timeoutMs), OverdueAmong(after, listed[1..], nowMs, timeoutMs);
      && (Stale(before[listed[0]], nowMs, timeoutMs) ==> listed[0] !in left && stale == left + {listed[0]})
      && (!Stale(before[listed[0]], nowMs, timeoutMs) ==> stale == left)
  {
    assert listed == [listed[0]] + listed[1..];
  }

  lemma ReapLast(s: State, p: Pid)
    requires Typed(s) && p < |s.procs| && s.procs[p].pc.Reaping? && s.procs[p].pc.todo == []
    ensures var u := ReapStep(s, p);
      && u.players == s.players && u.primary == s.primary && u.metrics == s.metrics && MatchesKept(s, u)
      && |u.procs| == |s.procs| && u.procs[p].pc == Counting([Bump(Recovered, s.procs[p].pc.recovered)])
  {
  }

  lemma ReapEnd(s: State, acts: seq<Action>, d: Assumptions, p: Pid)
    requires Finishes(s, acts, d, p) && s.procs[p].pc.Reaping? && s.procs[p].pc.todo == []
    ensures var t := Final(s, acts, d);
      && t.players == s.players && t.primary == s.primary && MatchesKept(s, t)
      && Gained(s, t, Recovered, s.procs[p].pc.recovered, Recovered, 0)
  {
    Peel(s, acts, d, p);
    ReapLast(s, p);
    var u := ExecStep(s, p, acts[0].now);
    assert u == ReapStep(s, p);
    hide ReapStep;
    hide ExecStep;
    CountsOne(u, acts[1..], d, p, Bump(Recovered, s.procs[p].pc.recovered));
    hide Typed;
  }

  /** The next listed player: reset if its claim is overdue, and otherwise let be. */
  lemma ReapNext(s: State, p: Pid)
    requires Typed(s) && p < |s.procs| && s.procs[p].pc.Reaping? && s.procs[p].pc.todo != []
    ensures var u, pc, timeout := ReapStep(s, p), s.procs[p].pc, s.config.staleClaimTimeoutMs;
      var stale := Stale(s.players[pc.todo[0]], pc.nowMs, timeout);
      && u.players == s.players[pc.todo[0] := Reap(s.players[pc.todo[0]], pc.nowMs, timeout)]
      && u.procs[p].pc == Reaping(pc.nowMs, pc.todo[1..], pc.recovered + if stale then 1 else 0)
      && u.primary == s.primary && u.metrics == s.metrics && MatchesKept(s, u)
  {
    assert PcTyped(s.players, s.procs[p].pc);
  }

  /** A reset, or none, followed by the rest of the tick. */
  lemma ReapRest(s: State, u: State, t: State, listed: seq<Ref>, nowMs: nat, recovered: nat)
    requires Typed(s) && Typed(u) && Typed(t) && listed != [] && listed[0] < |s.players|
    requires var timeout := s.config.staleClaimTimeoutMs;
      var one := if Stale(s.players[listed[0]], nowMs, timeout) then 1 else 0;
      && u.players == s.players[listed[0] := Reap(s.players[listed[0]], nowMs, timeout)]
      && u.metrics == s.metrics && Swept(u.players, t.players, listed[1..], nowMs, timeout)
      && Gained(u, t, Recovered, recovered + one + |OverdueAmong(u.players, listed[1..], nowMs, timeout)|, Recovered, 0)
    ensures var timeout := s.config.staleClaimTimeoutMs;
      && Swept(s.players, t.players, listed, nowMs, timeout)
      && Gained(s, t, Recovered, recovered + |OverdueAmong(s.players, listed, nowMs, timeout)|, Recovered, 0)
  {
    hide OverdueAmong;
    hide Typed;
    SweepOne(s.players, u.players, listed, nowMs, s.config.staleClaimTimeoutMs);
  }

  lemma {:induction false} ReapRun(s: State, acts: seq<Action>, d: Assumptions, p: Pid)
    requires Finishes(s, acts, d, p) && s.procs[p].pc.Reaping?
    ensures var t, pc := Final(s, acts, d), s.procs[p].pc;
      && Swept(s.players, t.players, pc.todo, pc.nowMs, s.config.staleClaimTimeoutMs)
      && t.primary == s.primary && MatchesKept(s, t)
      && Gained(s, t, Recovered, pc.recovered + |OverdueAmong(s.players, pc.todo, pc.nowMs, s.config.staleClaimTimeoutMs)|,
                Recovered, 0)
    decreases |acts|
  {
    var pc := s.procs[p].pc;
    if pc.todo == [] {
      ReapEnd(s, acts, d, p);
    } else {
      Peel(s, acts, d, p);
      ReapNext(s, p);
      var u := ReapStep(s, p);
      assert PcTyped(s.players, pc);
      ReapRun(u, acts[1..], d, p);
      ReapRest(s, u, Final(s, acts, d), pc.todo, pc.nowMs, pc.recovered);
    }
  }

  /** A reaper tick resets exactly the listed players whose claim is stamped and overdue, and adds
      their number to its counter. */
  lemma ReaperAlone(s: State, p: Pid, nowMs: nat, listed: seq<Ref>, acts: seq<Action>, d: Assumptions)
    requires Typed(s) && Enabled(s, Begin(p, ReaperTick(nowMs, listed)))
    requires Finishes(ExecBegin(s, p, ReaperTick(nowMs, listed)), acts, d, p)
    ensures var t := Final(ExecBegin(s, p, ReaperTick(nowMs, listed)), acts, d);
      var stale := OverdueAmong(s.players, listed, nowMs, s.config.staleClaimTimeoutMs);
      && Swept(s.players, t.players, listed, nowMs, s.config.staleClaimTimeoutMs)
      && t.primary == s.primary && MatchesKept(s, t) && Gained(s, t, Recovered, |stale|, Recovered, 0)
  {
    ReapRun(ExecBegin(s, p, ReaperTick(nowMs, listed)), acts, d, p);
  }

  // ---- The opening of an attempt -----------------------------------------------------------

  /** The rating is within the window that a wait of `waited` gives. */
  predicate Near(rating: nat, other: nat, window: nat) {
    other <= rating + window && rating <= other + window
  }

  /** What an attempt has done when its scan is back: it remembers its seed's rating and wait, it
      has counted one cycle, and it goes on to claim exactly if there are ten candidates. A scan
      may return exactly the duplicate-free lists of players within the window of the seed. */
  lemma AttemptOpens(s: State, p: Pid, seed: Ref, scanMs: nat, now: nat, cands: seq<Ref>)
    requires Typed(s) && Enabled(s, Begin(p, Attempt(seed, scanMs))) && s.players[seed].join <= scanMs
    ensures var t := CycleStep(ExecBegin(s, p, Attempt(seed, scanMs)), p);
      var waited := scanMs - s.players[seed].join;
      && t.players == s.players && t.primary == s.primary && MatchesKept(s, t) && Gained(s, t, Cycles, 1, Cycles, 0)
      && (Enabled(t, Found(p, cands)) <==>
            Distinct(cands) && ValidRefs(s.players, cands)
            && forall x :: x in cands ==>
                 Near(s.players[seed].rating, s.players[x].rating, RelaxationWindow(waited, s.config)))
      && (Enabled(t, Found(p, cands)) && |cands| >= 10 ==>
            && Unmoved(t, ExecFound(t, p, cands))
            && ExecFound(t, p, cands).procs[p]
               == Process(Claiming(SeedView(s.players[seed].rating, waited, s.config), cands, 0, []), false))
  {
    var t := CycleStep(ExecBegin(s, p, Attempt(seed, scanMs)), p);
  }

  /** With fewer than ten candidates an attempt counts one shortage and leaves no other trace. */
  lemma ShortAttemptAlone(s: State, p: Pid, cands: seq<Ref>, acts: seq<Action>, d: Assumptions)
    requires Typed(s) && Enabled(s, Found(p, cands)) && |cands| < 10
    requires Finishes(ExecFound(s, p, cands), acts, d, p)
    ensures var t := Final(ExecFound(s, p, cands), acts, d);
      t.players == s.players && t.primary == s.primary && MatchesKept(s, t) && Gained(s, t, Insufficient, 1, Insufficient, 0)
  {
    CountsOne(ExecFound(s, p, cands), acts, d, p, Bump(Insufficient, 1));
  }
}
