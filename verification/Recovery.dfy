/** Claim attribution, crash recovery, and what a crash can leave behind for good. Everything here
    relies on the reaper sparing live workers, and, where the pool is concerned, on fresh inserts
    as well. */
module Recovery {
  import opened Records
  import opened Protocol
  import opened Shape
  import opened Ownership
  import opened Membership
  import opened Safety

  // ---- Claim fields ----------------------------------------------------------------------

  /** A waiting record carries no claim data; a claimed record is attributed to its owner,
      unless the owner is between claiming it and stamping it. */
  ghost predicate FieldsOk(s: State, x: Ref)
    requires |s.owner| == |s.players| && x < |s.players| && s.owner[x] < |s.procs|
  {
    var r := s.players[x];
    && (r.state == Waiting ==> r.claimedBy == 0 && r.claimTs == 0)
    && (r.state == Claimed ==>
          r.claimedBy == s.owner[x] || (r.claimedBy == 0 && r.claimTs == 0 && AboutToStamp(s.procs[s.owner[x]].pc, x)))
  }

  predicate AboutToStamp(pc: Pc, x: Ref) {
    pc.Stamping? && pc.next < |pc.cands| && pc.cands[pc.next] == x
  }

  ghost predicate Attributed(s: State) {
    Owned(s) && forall x :: 0 <= x < |s.players| ==> FieldsOk(s, x)
  }

  lemma AttributedClaim(s: State, p: Pid)
    requires Attributed(s) && p < |s.procs| && s.procs[p].pc.Claiming?
    ensures forall x :: 0 <= x < |s.players| ==> FieldsOk(ClaimStep(s, p), x)
  {
    forall x | 0 <= x < |s.players|
      ensures FieldsOk(ClaimStep(s, p), x)
    {
      assert FieldsOk(s, x);
    }
  }

  lemma AttributedStamp(s: State, p: Pid, now: nat)
    requires Attributed(s) && p < |s.procs| && !s.procs[p].crashed && s.procs[p].pc.Stamping?
    ensures forall x :: 0 <= x < |s.players| ==> FieldsOk(StampStep(s, p, now), x)
  {
    var r := s.procs[p].pc.cands[s.procs[p].pc.next];
    assert RecordOk(s, r) && StandingOk(s, p, r);
    forall x | 0 <= x < |s.players|
      ensures FieldsOk(StampStep(s, p, now), x)
    {
      assert FieldsOk(s, x);
    }
  }

  lemma AttributedRelease(s: State, p: Pid)
    requires Attributed(s) && p < |s.procs| && !s.procs[p].crashed && s.procs[p].pc.RollingBack?
    ensures forall x :: 0 <= x < |s.players| ==> FieldsOk(ReleaseStep(s, p), x)
  {
    var pc := s.procs[p].pc;
    if pc.next < |pc.claimed| {
      var r := pc.claimed[pc.next];
      SplitAt(pc.claimed, pc.next, r);
      assert RecordOk(s, r) && StandingOk(s, p, r);
    }
    forall x | 0 <= x < |s.players|
      ensures FieldsOk(ReleaseStep(s, p), x)
    {
      assert FieldsOk(s, x);
    }
  }

  lemma AttributedMark(s: State, p: Pid, now: nat)
    requires Attributed(s) && p < |s.procs| && !s.procs[p].crashed && s.procs[p].pc.Marking?
    ensures forall x :: 0 <= x < |s.players| ==> FieldsOk(MarkStep(s, p, now), x)
  {
    forall x | 0 <= x < |s.players|
      ensures FieldsOk(MarkStep(s, p, now), x)
    {
      assert FieldsOk(s, x);
    }
  }

  /** Steps that leave records and owners alone, taken by a process that is not stamping. */
  lemma AttributedElsewhere(s: State, t: State, p: Pid)
    requires Attributed(s) && Typed(t) && p < |s.procs| == |t.procs|
    requires t.players == s.players && t.owner == s.owner
    requires forall q :: 0 <= q < |s.procs| && q != p ==> t.procs[q].pc == s.procs[q].pc
    requires s.procs[p].pc.Stamping? ==> t.procs[p].pc == s.procs[p].pc
    ensures forall x :: 0 <= x < |t.players| ==> FieldsOk(t, x)
  {
    forall x | 0 <= x < |t.players|
      ensures FieldsOk(t, x)
    {
      assert FieldsOk(s, x);
    }
  }

  lemma AttributedInsert(s: State, p: Pid, now: nat)
    requires Attributed(s) && p < |s.procs| && s.procs[p].pc.Enqueuing?
    ensures forall x :: 0 <= x < |s.players| + 1 ==> FieldsOk(InsertStep(s, p, now), x)
  {
    forall x | 0 <= x < |s.players|
      ensures FieldsOk(InsertStep(s, p, now), x)
    {
      assert FieldsOk(s, x);
    }
  }

  lemma AttributedEvict(s: State, p: Pid)
    requires Attributed(s) && p < |s.procs| && s.procs[p].pc.Cancelling?
    ensures forall x :: 0 <= x < |s.players| ==> FieldsOk(EvictStep(s, p), x)
  {
    forall x | 0 <= x < |s.players|
      ensures FieldsOk(EvictStep(s, p), x)
    {
      assert FieldsOk(s, x);
    }
  }

  lemma AttributedReap(s: State, p: Pid)
    requires Attributed(s) && p < |s.procs| && s.procs[p].pc.Reaping?
    ensures forall x :: 0 <= x < |s.players| ==> FieldsOk(ReapStep(s, p), x)
  {
    forall x | 0 <= x < |s.players|
      ensures FieldsOk(ReapStep(s, p), x)
    {
      assert FieldsOk(s, x);
    }
  }

  /** Removing, recording and counting touch no record. */
  lemma AttributedCommit(s: State, p: Pid, now: nat)
    requires Attributed(s) && p < |s.procs| && Typed(ExecStep(s, p, now))
    requires var pc := s.procs[p].pc; pc.Removing? || pc.Pushing? || pc.Counting? || pc.Evicting? || pc.Seeded?
    ensures forall x :: 0 <= x < |s.players| ==> FieldsOk(ExecStep(s, p, now), x)
    ensures |ExecStep(s, p, now).players| == |s.players|
  {
    AttributedElsewhere(s, ExecStep(s, p, now), p);
  }

  lemma AttributedStep(s: State, p: Pid, now: nat)
    requires Attributed(s) && Enabled(s, Step(p, now)) && ReapsOnlyCrashed(s, Step(p, now))
    ensures Attributed(ExecStep(s, p, now))
  {
    OwnedKept(s, Step(p, now));
    match s.procs[p].pc
    case Enqueuing(_, _) => AttributedInsert(s, p, now);
    case Claiming(_, _, _, _) => AttributedClaim(s, p);
    case Stamping(_, _, _, _) => AttributedStamp(s, p, now);
    case RollingBack(_, _) => AttributedRelease(s, p);
    case Marking(_, _, _) => AttributedMark(s, p, now);
    case Cancelling(_) => AttributedEvict(s, p);
    case Reaping(_, _, _) => AttributedReap(s, p);
    case Removing(_, _, _) => AttributedCommit(s, p, now);
    case Pushing(_, _) => AttributedCommit(s, p, now);
    case Counting(_) => AttributedCommit(s, p, now);
    case Evicting(_) => AttributedCommit(s, p, now);
    case Seeded(_) => AttributedCommit(s, p, now);
  }

  lemma AttributedKept(s: State, a: Action)
    requires Attributed(s) && Enabled(s, a) && ReapsOnlyCrashed(s, a)
    ensures Attributed(Exec(s, a))
  {
    OwnedKept(s, a);
    match a
    case Begin(p, op) => AttributedElsewhere(s, ExecBegin(s, p, op), p);
    case Found(p, cands) => AttributedElsewhere(s, ExecFound(s, p, cands), p);
    case Step(p, now) => AttributedStep(s, p, now);
    case Crash(p) => AttributedElsewhere(s, Exec(s, a), p);
  }

  lemma {:induction false} RunKeepsAttribution(s: State, acts: seq<Action>, d: Assumptions)
    requires Attributed(s) && Run(s, acts, d) && d.crashedOwners
    ensures Attributed(Final(s, acts, d))
    decreases |acts|
  {
    if acts != [] {
      AttributedKept(s, acts[0]);
      RunKeepsAttribution(Exec(s, acts[0]), acts[1..], d);
    }
  }

  /** In every reachable state a waiting player's claim fields are zero, and a stamped claim
      names the process that holds it: a failed attempt leaves no trace on its candidates. */
  lemma ClaimFieldsAreAccurate(s: State, acts: seq<Action>, d: Assumptions, x: Ref)
    requires Init(s) && Run(s, acts, d) && d.crashedOwners && x < |Final(s, acts, d).players|
    ensures var t := Final(s, acts, d); var r := t.players[x];
      && (r.state == Waiting ==> Unclaimed(r))
      && (r.state == Claimed && r.claimTs != 0 ==> r.claimedBy == t.owner[x])
  {
    InitOwned(s);
    RunKeepsAttribution(s, acts, d);
    assert FieldsOk(Final(s, acts, d), x);
  }

  // ---- Orphaned claims -------------------------------------------------------------------

  ghost predicate Orphan(s: State, x: Ref)
    requires |s.owner| == |s.players|
  {
    x < |s.players| && s.players[x].state == Claimed && s.owner[x] < |s.procs| && s.procs[s.owner[x]].crashed
  }

  /** Until a reaper resets it, an orphaned claim does not change at all. */
  ghost predicate OrphanFate(s: State, t: State, x: Ref)
    requires |s.owner| == |s.players| && |t.owner| == |t.players| && x < |s.players|
  {
    && x < |t.players|
    && ((t.players[x] == s.players[x] && Orphan(t, x)) || (Unclaimed(t.players[x]) && s.players[x].claimTs != 0))
  }

  lemma OrphanClaiming(s: State, p: Pid, now: nat, x: Ref)
    requires Owned(s) && Enabled(s, Step(p, now)) && Orphan(s, x)
    requires s.procs[p].pc.Claiming? || s.procs[p].pc.Stamping?
    ensures OrphanFate(s, ExecStep(s, p, now), x)
  {
    assert RecordOk(s, x) && StandingOk(s, p, x);
  }

  lemma OrphanReleasing(s: State, p: Pid, now: nat, x: Ref)
    requires Owned(s) && Enabled(s, Step(p, now)) && Orphan(s, x)
    requires s.procs[p].pc.RollingBack? || s.procs[p].pc.Marking?
    ensures OrphanFate(s, ExecStep(s, p, now), x)
  {
    var pc := s.procs[p].pc;
    assert RecordOk(s, x) && StandingOk(s, p, x);
    if pc.next < |pc.claimed| {
      SplitAt(pc.claimed, pc.next, x);
    }
  }

  lemma OrphanReaping(s: State, p: Pid, x: Ref)
    requires Owned(s) && p < |s.procs| && s.procs[p].pc.Reaping? && Orphan(s, x)
    ensures OrphanFate(s, ReapStep(s, p), x)
  {
  }

  /** Steps that change no existing record's value or owner, and crash nobody back to life. */
  lemma OrphanUntouched(s: State, t: State, x: Ref)
    requires Typed(s) && Typed(t) && Orphan(s, x)
    requires |s.players| <= |t.players| && t.players[x] == s.players[x] && t.owner[x] == s.owner[x]
    requires |t.procs| == |s.procs| && forall q :: 0 <= q < |s.procs| && s.procs[q].crashed ==> t.procs[q].crashed
    ensures OrphanFate(s, t, x)
  {
  }

  lemma OrphanElsewhere(s: State, p: Pid, now: nat, x: Ref)
    requires Typed(s) && Enabled(s, Step(p, now)) && Typed(ExecStep(s, p, now)) && Orphan(s, x)
    requires var pc := s.procs[p].pc;
      pc.Enqueuing? || pc.Seeded? || pc.Removing? || pc.Pushing? || pc.Counting? || pc.Cancelling? || pc.Evicting?
    ensures OrphanFate(s, ExecStep(s, p, now), x)
  {
    OrphanUntouched(s, ExecStep(s, p, now), x);
  }

  lemma OrphanMove(s: State, p: Pid, now: nat, x: Ref)
    requires Owned(s) && Enabled(s, Step(p, now)) && Typed(ExecStep(s, p, now)) && Orphan(s, x)
    ensures OrphanFate(s, ExecStep(s, p, now), x)
  {
    match s.procs[p].pc
    case Claiming(_, _, _, _) => OrphanClaiming(s, p, now, x);
    case Stamping(_, _, _, _) => OrphanClaiming(s, p, now, x);
    case RollingBack(_, _) => OrphanReleasing(s, p, now, x);
    case Marking(_, _, _) => OrphanReleasing(s, p, now, x);
    case Reaping(_, _, _) => OrphanReaping(s, p, x);
    case _ => OrphanElsewhere(s, p, now, x);
  }

  lemma OrphanStep(s: State, a: Action, x: Ref)
    requires Owned(s) && Enabled(s, a) && Orphan(s, x)
    ensures Typed(Exec(s, a)) && OrphanFate(s, Exec(s, a), x)
  {
    TypedKept(s, a);
    match a
    case Found(_, _) => OrphanUntouched(s, Exec(s, a), x);
    case Begin(_, _) => OrphanUntouched(s, Exec(s, a), x);
    case Crash(_) => OrphanUntouched(s, Exec(s, a), x);
    case Step(p, now) => OrphanMove(s, p, now, x);
  }

  /** A gap in the recovery: a worker that crashes between claiming a player and stamping the
      claim leaves the player claimed for ever. No reaper resets an unstamped claim, so in
      every continuation the player stays claimed and is never matched; it stays in the pool. */
  lemma {:induction false} UnstampedOrphanIsStuck(s: State, acts: seq<Action>, d: Assumptions, x: Ref)
    requires Owned(s) && Run(s, acts, d) && d.crashedOwners && Orphan(s, x) && s.players[x].claimTs == 0
    ensures var t := Final(s, acts, d);
      && x < |t.players| && t.players[x] == s.players[x] && Orphan(t, x) && Listings(t.log, x) == 0
      && (Inv(s) && d == BOTH ==> InPool(t, x))
    decreases |acts|
  {
    if acts == [] {
      ListedWhenRecorded(s, x);
      if Inv(s) {
        assert MemberOk(s, x);
      }
    } else {
      OrphanStep(s, acts[0], x);
      OwnedKept(s, acts[0]);
      if Inv(s) && d == BOTH {
        PooledKept(s, acts[0]);
      }
      UnstampedOrphanIsStuck(Exec(s, acts[0]), acts[1..], d, x);
    }
  }

  // ---- Matched for nothing ---------------------------------------------------------------

  /** Matched by a process that crashed before it recorded the match: while marking, while
      removing, or just before the push. */
  ghost predicate HalfMatched(s: State, x: Ref) {
    && |s.owner| == |s.players| && x < |s.players| && s.players[x].state == Matched
    && s.owner[x] < |s.procs| && s.procs[s.owner[x]].crashed
    && StandingOf(s.procs[s.owner[x]].pc, x).taken
  }

  lemma HalfMatchedStep(s: State, a: Action, x: Ref)
    requires Owned(s) && Enabled(s, a) && ReapsOnlyCrashed(s, a) && HalfMatched(s, x)
    ensures HalfMatched(Exec(s, a), x) && Exec(s, a).owner[x] == s.owner[x]
    ensures Exec(s, a).procs[s.owner[x]] == s.procs[s.owner[x]]
  {
    hide Exec;
    hide ReapsOnlyCrashed;
    var q, t := s.owner[x], Exec(s, a);
    ProgressMade(s, a);
    OwnedKept(s, a);
    assert t.procs[q] == s.procs[q];
    assert RecordOk(t, x) && StandingOk(t, q, x);
  }

  /** A second gap: a worker that crashes between marking a player and recording the match
      strands the player. It belongs to no match, now or ever. Those not yet removed stay in the
      pool, the others are out of it. */
  lemma {:induction false} HalfMatchedIsStuck(s: State, acts: seq<Action>, d: Assumptions, x: Ref)
    requires Owned(s) && Run(s, acts, d) && d.crashedOwners && HalfMatched(s, x)
    ensures var t := Final(s, acts, d);
      && x < |t.players| && t.players[x].state == Matched && Listings(t.log, x) == 0
      && (Inv(s) && d == BOTH ==> (InPool(t, x) <==> StandingOf(s.procs[s.owner[x]].pc, x).doomed))
    decreases |acts|
  {
    if acts == [] {
      ListedWhenRecorded(s, x);
      if Inv(s) {
        assert MemberOk(s, x);
      }
    } else {
      hide Owned;
      hide HalfMatched;
      assert Enabled(s, acts[0]) && ReapsOnlyCrashed(s, acts[0]);
      HalfMatchedStep(s, acts[0], x);
      OwnedKept(s, acts[0]);
      if Inv(s) && d == BOTH {
        PooledKept(s, acts[0]);
      }
      HalfMatchedIsStuck(Exec(s, acts[0]), acts[1..], d, x);
    }
  }

  /** Where such a player is, by where its worker crashed: still in the pool if it was marking,
      or removing and had not come to this player; out of the pool if it was past it. */
  lemma HalfMatchedPlaces(s: State, x: Ref)
    requires Inv(s) && HalfMatched(s, x)
    ensures match s.procs[s.owner[x]].pc
      case Marking(_, claimed, next) => x in claimed[..next] && InPool(s, x)
      case Removing(_, claimed, next) => x in claimed && (InPool(s, x) <==> x in claimed[next..])
      case Pushing(_, claimed) => x in claimed && !InPool(s, x)
      case _ => false
  {
    assert MemberOk(s, x);
  }

  ghost predicate NeverListed(s: State, d: Assumptions, x: Ref) {
    forall acts :: Run(s, acts, d) ==> Listings(Final(s, acts, d).log, x) == 0
  }

  lemma ListedAlready(s: State, d: Assumptions, x: Ref)
    requires Typed(s) && Listings(s.log, x) == 1
    ensures !NeverListed(s, d, x)
  {
    assert Run(s, [], d) && Final(s, [], d) == s;
  }

  /** A matched player whose worker has crashed is in no match for ever if and only if the worker
      crashed before it recorded the match; otherwise it is in one already. */
  lemma LostExactlyWhen(s: State, d: Assumptions, x: Ref)
    requires Owned(s) && d.crashedOwners && x < |s.players| && s.players[x].state == Matched && s.procs[s.owner[x]].crashed
    ensures NeverListed(s, d, x) <==> HalfMatched(s, x)
  {
    ListedWhenRecorded(s, x);
    if HalfMatched(s, x) {
      hide Owned;
      hide HalfMatched;
      forall acts | Run(s, acts, d)
        ensures Listings(Final(s, acts, d).log, x) == 0
      {
        HalfMatchedIsStuck(s, acts, d, x);
      }
    } else {
      ListedAlready(s, d, x);
    }
  }

  /** While such a player is in the pool, its id can neither queue again nor cancel. */
  lemma BlockedId(s: State, p: Pid, x: Ref, rating: nat, now: nat)
    requires Typed(s) && p < |s.procs| && x < |s.players| && s.players[x].state == Matched && InPool(s, x)
    ensures ExecBegin(s, p, Enqueue(s.players[x].id, rating)) == s
    ensures var t := ExecBegin(s, p, Cancel(s.players[x].id));
      Typed(t) && ExecStep(t, p, now) == SetPc(s, p, Idle)
  {
  }

  /** At some point of the run the record is unclaimed. */
  ghost predicate SometimeUnclaimed(s: State, acts: seq<Action>, d: Assumptions, x: Ref)
    requires Run(s, acts, d)
    decreases |acts|
  {
    || (x < |s.players| && Unclaimed(s.players[x]))
    || (acts != [] && SometimeUnclaimed(Exec(s, acts[0]), acts[1..], d, x))
  }

  /** The reaper's own next step on a record it still has to visit. */
  lemma VisitStep(s: State, p: Pid, x: Ref)
    requires Owned(s) && p < |s.procs| && s.procs[p].pc.Reaping? && x in s.procs[p].pc.todo && Orphan(s, x)
    requires Stale(s.players[x], s.procs[p].pc.nowMs, s.config.staleClaimTimeoutMs)
    ensures var t := ReapStep(s, p);
      || (x < |t.players| && Unclaimed(t.players[x]))
      || (t.procs[p].pc.Reaping? && x in t.procs[p].pc.todo && t.procs[p].pc.nowMs == s.procs[p].pc.nowMs)
  {
    var todo := s.procs[p].pc.todo;
    assert todo == [todo[0]] + todo[1..];
  }

  /** Every stamped claim of a crashed worker that is stale at a reaper tick becomes claimable
      again by the end of that tick, whatever other processes do meanwhile. */
  lemma {:induction false} ReaperRecoversOrphans(s: State, acts: seq<Action>, d: Assumptions, p: Pid, x: Ref)
    requires Owned(s) && Run(s, acts, d) && d.crashedOwners
    requires p < |s.procs| && s.procs[p].pc.Reaping? && x in s.procs[p].pc.todo
    requires Orphan(s, x) && Stale(s.players[x], s.procs[p].pc.nowMs, s.config.staleClaimTimeoutMs)
    requires p < |Final(s, acts, d).procs| && !Final(s, acts, d).procs[p].pc.Reaping?
    ensures SometimeUnclaimed(s, acts, d, x)
    decreases |acts|
  {
    var t := Exec(s, acts[0]);
    OrphanStep(s, acts[0], x);
    OwnedKept(s, acts[0]);
    if !Unclaimed(t.players[x]) {
      if acts[0].p == p {
        if acts[0].Step? {
          VisitStep(s, p, x);
        }
      }
      ProgressMade(s, acts[0]);
      ReaperRecoversOrphans(t, acts[1..], d, p, x);
    } else {
      assert SometimeUnclaimed(t, acts[1..], d, x);
    }
  }

  /** A tick that lists the pool has every pooled orphan on its list; under both assumptions
      every orphan is pooled. */
  lemma TickVisitsEveryOrphan(s: State, p: Pid, nowMs: nat, players: seq<Ref>, x: Ref)
    requires Owned(s) && Enabled(s, Begin(p, ReaperTick(nowMs, players))) && Orphan(s, x)
    requires forall id :: id in s.primary ==> s.primary[id] in players
    ensures Inv(s) ==> InPool(s, x)
    ensures InPool(s, x) ==>
      var t := Exec(s, Begin(p, ReaperTick(nowMs, players)));
      t.procs[p].pc.Reaping? && x in t.procs[p].pc.todo && t.players == s.players
  {
    if Inv(s) {
      assert MemberOk(s, x);
    }
  }

  /** Recovery, from the start of a tick to its end: when a reaper that lists the pool begins a
      tick and finishes it, every pooled claim of a crashed worker that is stamped and past the
      timeout at that reading has become claimable again. */
  lemma OrphansRecoverAtTick(s: State, acts: seq<Action>, d: Assumptions, p: Pid, nowMs: nat, players: seq<Ref>, x: Ref)
    requires Owned(s) && Run(s, acts, d) && d.crashedOwners
    requires acts != [] && acts[0] == Begin(p, ReaperTick(nowMs, players))
    requires forall id :: id in s.primary ==> s.primary[id] in players
    requires Orphan(s, x) && InPool(s, x) && Stale(s.players[x], nowMs, s.config.staleClaimTimeoutMs)
    requires p < |Final(s, acts, d).procs| && !Final(s, acts, d).procs[p].pc.Reaping?
    ensures SometimeUnclaimed(s, acts, d, x)
  {
    var t := Exec(s, acts[0]);
    TickVisitsEveryOrphan(s, p, nowMs, players, x);
    OrphanStep(s, acts[0], x);
    OwnedKept(s, acts[0]);
    ReaperRecoversOrphans(t, acts[1..], d, p, x);
  }
}
