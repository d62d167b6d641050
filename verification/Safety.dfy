/** What the claiming protocol guarantees over whole runs: any number of processes, any
    interleaving, crashes anywhere. Each result names the assumptions it relies on. */
module Safety {
  import opened Basics
  import opened Records
  import opened Balancer
  import opened Protocol
  import opened Shape
  import opened Ownership
  import opened Membership

  // ---- Matches, whatever happens ---------------------------------------------------------

  lemma InitShaped(s: State)
    requires Init(s)
    ensures Shaped(s)
  {
  }

  /** In every run, with no assumption: every match ever recorded is two teams of five different
      records, no split of the ten has a smaller delta, the delta is at most the spread, and the
      spread at most twice the seed's window. */
  lemma EveryMatchIsWellFormed(s: State, acts: seq<Action>, d: Assumptions)
    requires Init(s) && Run(s, acts, d)
    ensures forall m :: m in Final(s, acts, d).log ==> GoodMatch(m)
  {
    InitShaped(s);
    RunKeepsShape(s, acts, d);
  }

  /** In every run, with no assumption: the history holds exactly the newest matches, up to its
      limit, in the order recorded. */
  lemma HistoryIsNewest(s: State, acts: seq<Action>, d: Assumptions)
    requires Init(s) && Run(s, acts, d)
    ensures var t := Final(s, acts, d);
      && |t.history| == Min(|t.log|, t.historyLimit)
      && t.history == t.log[|t.log| - |t.history|..]
  {
    InitShaped(s);
    RunKeepsShape(s, acts, d);
  }

  // ---- A player is in one match ----------------------------------------------------------

  /** How often a record is listed on a team, over all matches ever recorded. */
  ghost function Listings(log: seq<MatchRecord>, x: Ref): nat {
    if log == [] then 0
    else multiset(log[0].teamA)[x] + multiset(log[0].teamB)[x] + Listings(log[1..], x)
  }

  lemma {:induction false} DistinctOnce<T>(c: seq<T>, x: T)
    requires Distinct(c)
    ensures multiset(c)[x] == if x in c then 1 else 0
  {
    if c != [] {
      assert c == [c[0]] + c[1..];
      assert c[0] !in c[1..];
      DistinctOnce(c[1..], x);
    }
  }

  lemma {:induction false} ListedOnce(log: seq<MatchRecord>, x: Ref)
    requires forall i :: 0 <= i < |log| ==> TwoTeams(log[i])
    requires forall i, j :: 0 <= i < j < |log| && x in log[i].claimed ==> x !in log[j].claimed
    ensures Listings(log, x) == if exists i :: 0 <= i < |log| && x in log[i].claimed then 1 else 0
  {
    if log != [] {
      ListedOnce(log[1..], x);
      var m := log[0];
      DistinctOnce(m.claimed, x);
      assert multiset(m.teamA)[x] + multiset(m.teamB)[x] == (multiset(m.teamA) + multiset(m.teamB))[x];
      if i :| 0 <= i < |log| && x in log[i].claimed {
        if i > 0 {
          assert x in log[1..][i - 1].claimed;
        }
      }
    }
  }

  /** When a record is listed: it is matched, and whoever matched it is done recording. */
  lemma ListedWhenRecorded(t: State, x: Ref)
    requires Owned(t)
    ensures Listings(t.log, x) <= 1
    ensures Listings(t.log, x) == 1 <==>
      x < |t.players| && t.players[x].state == Matched && !StandingOf(t.procs[t.owner[x]].pc, x).taken
  {
    forall i, j | 0 <= i < j < |t.log| && x in t.log[i].claimed
      ensures x !in t.log[j].claimed
    {
    }
    ListedOnce(t.log, x);
    if x < |t.players| {
      assert RecordOk(t, x);
    } else {
      NotRecordedYet(t, x);
    }
  }

  /** The engine's central promise, and exactly when it is kept. In every reachable state each
      player record is listed at most once on all teams of all matches ever recorded; and it is
      listed if and only if it is matched and the worker that matched it is not, live or
      crashed, still on its way to recording the match. */
  lemma NoPlayerInTwoMatches(s: State, acts: seq<Action>, d: Assumptions, x: Ref)
    requires Init(s) && Run(s, acts, d) && d.crashedOwners
    ensures var t := Final(s, acts, d);
      && Listings(t.log, x) <= 1
      && (Listings(t.log, x) == 1 <==>
            x < |t.players| && t.players[x].state == Matched && !StandingOf(t.procs[t.owner[x]].pc, x).taken)
  {
    InitOwned(s);
    RunKeepsOwned(s, acts, d);
    ListedWhenRecorded(Final(s, acts, d), x);
  }

  /** Between marking its first player and recording the match. */
  predicate Committing(pc: Pc) {
    pc.Marking? || pc.Removing? || pc.Pushing?
  }

  /** Once no worker is committing, every matched player is in exactly one match, and nobody
      else is in any. */
  lemma MatchedMeansListed(s: State, acts: seq<Action>, d: Assumptions, x: Ref)
    requires Init(s) && Run(s, acts, d) && d.crashedOwners
    requires forall p :: 0 <= p < |Final(s, acts, d).procs| ==> !Committing(Final(s, acts, d).procs[p].pc)
    ensures var t := Final(s, acts, d);
      Listings(t.log, x) == if x < |t.players| && t.players[x].state == Matched then 1 else 0
  {
    NoPlayerInTwoMatches(s, acts, d, x);
    var t := Final(s, acts, d);
    if x < |t.players| {
      assert !Committing(t.procs[t.owner[x]].pc);
    }
  }

  // ---- The ignored results never matter -------------------------------------------------

  /** The release and the match exchange ignore their result. For a live process they always
      take effect: the player is still claimed, and still claimed by this process. */
  lemma IgnoredExchangesSucceed(s: State, acts: seq<Action>, d: Assumptions, p: Pid)
    requires Init(s) && Run(s, acts, d) && d.crashedOwners
    ensures var t := Final(s, acts, d);
      p < |t.procs| && !t.procs[p].crashed ==>
        var pc := t.procs[p].pc;
        && (pc.RollingBack? && pc.next < |pc.claimed| ==>
              && t.players[pc.claimed[pc.next]].state == Claimed && t.owner[pc.claimed[pc.next]] == p
              && Unclaimed(ReleaseStep(t, p).players[pc.claimed[pc.next]]))
        && (pc.Marking? && pc.next < |pc.claimed| ==>
              && t.players[pc.claimed[pc.next]].state == Claimed && t.owner[pc.claimed[pc.next]] == p
              && MarkStep(t, p, 0).players[pc.claimed[pc.next]].state == Matched)
  {
    InitOwned(s);
    RunKeepsOwned(s, acts, d);
    var t := Final(s, acts, d);
    if p < |t.procs| && !t.procs[p].crashed {
      var pc := t.procs[p].pc;
      if (pc.RollingBack? || pc.Marking?) && pc.next < |pc.claimed| {
        var r := pc.claimed[pc.next];
        assert r in pc.claimed[pc.next..];
        assert RecordOk(t, r) && StandingOk(t, p, r);
      }
    }
  }

  /** A process has no claims unless it is claiming, rolling back or marking: in particular an
      attempt that failed to claim ten players ends owning nothing. */
  lemma IdleOwnsNothing(s: State, acts: seq<Action>, d: Assumptions, p: Pid, x: Ref)
    requires Init(s) && Run(s, acts, d) && d.crashedOwners
    ensures var t := Final(s, acts, d);
      p < |t.procs| && x < |t.players| && t.players[x].state == Claimed && t.owner[x] == p ==>
        var pc := t.procs[p].pc; pc.Claiming? || pc.Stamping? || pc.RollingBack? || pc.Marking?
  {
    InitOwned(s);
    RunKeepsOwned(s, acts, d);
    var t := Final(s, acts, d);
    if x < |t.players| {
      assert RecordOk(t, x);
    }
  }

  // ---- Removal by id ---------------------------------------------------------------------

  /** What removing a record by its id must do: the record is there, is the process's own, and
      its entry is the only one to go. */
  ghost predicate RemovesExactly(s: State, t: State, p: Pid, r: Ref, state: Status)
    requires Typed(s)
  {
    && r < |s.players| && s.players[r].state == state && s.owner[r] == p && InPool(s, r)
    && t.primary == map id | id in s.primary && s.primary[id] != r :: s.primary[id]
  }

  lemma RemoveStepExact(s: State, p: Pid)
    requires Inv(s) && p < |s.procs| && s.procs[p].pc.Removing? && s.procs[p].pc.next < |s.procs[p].pc.claimed|
    ensures RemovesExactly(s, RemoveStep(s, p), p, s.procs[p].pc.claimed[s.procs[p].pc.next], Matched)
  {
    var pc := s.procs[p].pc;
    var r := pc.claimed[pc.next];
    SplitAt(pc.claimed, pc.next, r);
    assert RecordOk(s, r) && StandingOk(s, p, r) && MemberOk(s, r);
    OnlyOwnKey(s, r);
  }

  lemma UnlinkStepExact(s: State, p: Pid)
    requires Inv(s) && p < |s.procs| && s.procs[p].pc.Evicting?
    ensures RemovesExactly(s, UnlinkStep(s, p), p, s.procs[p].pc.ref, Evicted)
  {
    var r := s.procs[p].pc.ref;
    assert RecordOk(s, r) && StandingOk(s, p, r) && MemberOk(s, r);
    OnlyOwnKey(s, r);
  }

  /** Removal by id, its result ignored, removes exactly the record this process matched or
      evicted, never a later record that queued under the same id. */
  lemma RemovalIsExact(s: State, acts: seq<Action>, d: Assumptions, p: Pid)
    requires Init(s) && Run(s, acts, d) && d == BOTH && p < |Final(s, acts, d).procs|
    ensures var t := Final(s, acts, d); var pc := t.procs[p].pc;
      && (pc.Removing? && pc.next < |pc.claimed| ==>
            RemovesExactly(t, RemoveStep(t, p), p, pc.claimed[pc.next], Matched))
      && (pc.Evicting? ==> RemovesExactly(t, UnlinkStep(t, p), p, pc.ref, Evicted))
  {
    hide Inv;
    InitInv(s);
    RunKeepsInv(s, acts, d);
    var t := Final(s, acts, d);
    if t.procs[p].pc.Removing? && t.procs[p].pc.next < |t.procs[p].pc.claimed| {
      RemoveStepExact(t, p);
    } else if t.procs[p].pc.Evicting? {
      UnlinkStepExact(t, p);
    }
  }

  lemma OnlyOwnKey(t: State, r: Ref)
    requires KeysOk(t) && r < |t.players| && InPool(t, r)
    ensures forall id :: id in t.primary ==> (t.primary[id] == r <==> id == t.players[r].id)
  {
  }

  // ---- Final states and stale references -------------------------------------------------

  /** Matched and evicted are for ever, and a record's id, rating and join time never change:
      in every run, with no assumption. */
  lemma {:induction false} TerminalForever(s: State, acts: seq<Action>, d: Assumptions, x: Ref)
    requires Run(s, acts, d) && x < |s.players|
    ensures var t := Final(s, acts, d);
      && x < |t.players| && SameIdentity(s.players[x], t.players[x])
      && (Terminal(s.players[x]) ==> t.players[x].state == s.players[x].state)
    decreases |acts|
  {
    if acts != [] {
      ProgressMade(s, acts[0]);
      TerminalForever(Exec(s, acts[0]), acts[1..], d, x);
    }
  }

  lemma {:induction false} OutOfPoolForever(s: State, acts: seq<Action>, d: Assumptions, x: Ref)
    requires Run(s, acts, d) && x < |s.players| && !InPool(s, x)
    ensures x < |Final(s, acts, d).players| && !InPool(Final(s, acts, d), x)
    decreases |acts|
  {
    if acts != [] {
      ProgressMade(s, acts[0]);
      OutOfPoolForever(Exec(s, acts[0]), acts[1..], d, x);
    }
  }

  /** A reference kept from an old scan or lookup is harmless: once its record has left the
      pool, the record is matched or evicted, can never again be claimed or evicted, and never
      returns to the pool, whoever queues under its id later and whatever the reaper does. */
  lemma StaleReferencesAreHarmless(s: State, before: seq<Action>, after: seq<Action>, d: Assumptions, x: Ref)
    requires Init(s) && Run(s, before, BOTH)
    requires Run(Final(s, before, BOTH), after, d)
    requires x < |Final(s, before, BOTH).players| && !InPool(Final(s, before, BOTH), x)
    ensures var t := Final(Final(s, before, BOTH), after, d);
      && x < |t.players| && Terminal(t.players[x]) && !InPool(t, x)
      && TryClaim(t.players[x], 1, 1) == t.players[x] && TryEvict(t.players[x]) == t.players[x]
  {
    InitInv(s);
    RunKeepsInv(s, before, BOTH);
    var m := Final(s, before, BOTH);
    assert MemberOk(m, x);
    TerminalForever(m, after, d, x);
    OutOfPoolForever(m, after, d, x);
  }
}
