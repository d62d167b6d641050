/** Who holds which player. The ownership invariant needs one assumption: the reaper resets
    only claims of crashed workers. Whether ids are inserted twice does not matter to it. */
module Ownership {
  import opened Basics
  import opened Records
  import opened Balancer
  import opened Protocol
  import opened Shape

  /** What a process has to do with a record: claimed it and neither given it back nor matched
      it; matched it but not yet recorded the match; about to remove it from the pool; evicted
      it. */
  datatype Standing = Standing(held: bool, taken: bool, doomed: bool, evicting: bool)

  const NONE: Standing := Standing(false, false, false, false)

  ghost function StandingOf(pc: Pc, x: Ref): Standing {
    match pc
    case Claiming(_, _, _, claimed) => Standing(x in claimed, false, false, false)
    case Stamping(_, cands, next, claimed) =>
      Standing(x in claimed || (next < |cands| && x == cands[next]), false, false, false)
    case RollingBack(claimed, next) => Standing(next <= |claimed| && x in claimed[next..], false, false, false)
    case Marking(_, claimed, next) =>
      if next <= |claimed| then Standing(x in claimed[next..], x in claimed[..next], x in claimed[..next], false)
      else NONE
    case Removing(_, claimed, next) =>
      Standing(false, x in claimed, next <= |claimed| && x in claimed[next..], false)
    case Pushing(_, claimed) => Standing(false, x in claimed, false, false)
    case Evicting(ref) => Standing(false, false, x == ref, x == ref)
    case _ => NONE
  }

  /** Some recorded match contains the record. */
  ghost predicate Recorded(s: State, x: Ref) {
    exists i :: 0 <= i < |s.log| && x in s.log[i].claimed
  }

  /** What holds of one record and one process at all times. */
  ghost predicate StandingOk(s: State, q: Pid, x: Ref)
    requires |s.owner| == |s.players| && q < |s.procs| && x < |s.players|
  {
    var d := StandingOf(s.procs[q].pc, x);
    && (d.held && !s.procs[q].crashed ==> s.players[x].state == Claimed && s.owner[x] == q)
    && (d.taken ==> s.players[x].state == Matched && s.owner[x] == q)
    && (d.evicting ==> s.players[x].state == Evicted && s.owner[x] == q)
  }

  /** What holds of one record at all times. A claimed record is held by its owner, live or
      crashed. A matched record is either recorded or on its way there in its owner's hands,
      and never both; and only matched records are recorded. */
  ghost predicate RecordOk(s: State, x: Ref)
    requires |s.owner| == |s.players| && x < |s.players| && s.owner[x] < |s.procs|
  {
    var d := StandingOf(s.procs[s.owner[x]].pc, x);
    && (forall q :: 0 <= q < |s.procs| ==> StandingOk(s, q, x))
    && (s.players[x].state == Claimed ==> d.held)
    && (s.players[x].state == Matched ==> d.taken || Recorded(s, x))
    && (Recorded(s, x) ==> s.players[x].state == Matched && !d.taken)
  }

  ghost predicate AllOk(s: State)
    requires Typed(s)
  {
    forall x :: 0 <= x < |s.players| ==> RecordOk(s, x)
  }

  /** No two matches share a record. */
  ghost predicate NoneTwice(log: seq<MatchRecord>) {
    forall i, j, x :: 0 <= i < j < |log| && x in log[i].claimed ==> x !in log[j].claimed
  }

  ghost predicate Owned(s: State) {
    Shaped(s) && AllOk(s) && NoneTwice(s.log)
  }

  lemma InitOwned(s: State)
    requires Init(s)
    ensures Owned(s)
  {
  }

  // ---- One record, one step --------------------------------------------------------------

  /** Only process `p` has moved. */
  ghost predicate OnlyMoves(s: State, t: State, p: Pid) {
    && |t.owner| == |t.players|
    && |t.procs| == |s.procs| && p < |s.procs|
    && t.procs[p].crashed == s.procs[p].crashed
    && forall q :: 0 <= q < |s.procs| && q != p ==> t.procs[q] == s.procs[q]
  }

  /** A record that the step leaves alone, and that looks the same to the moving process. */
  lemma Bystander(s: State, t: State, p: Pid, x: Ref)
    requires OnlyMoves(s, t, p)
    requires |s.owner| == |s.players| && x < |s.players| && x < |t.players| && s.owner[x] < |s.procs|
    requires RecordOk(s, x)
    requires t.players[x].state == s.players[x].state && t.owner[x] == s.owner[x]
    requires Recorded(s, x) == Recorded(t, x)
    requires var d, e := StandingOf(s.procs[p].pc, x), StandingOf(t.procs[p].pc, x);
      e.held == d.held && e.taken == d.taken && (e.evicting ==> d.evicting)
    ensures RecordOk(t, x)
  {
    forall q | 0 <= q < |s.procs|
      ensures StandingOk(t, q, x)
    {
      assert StandingOk(s, q, x);
    }
  }

  /** Moves of one process that touch no shared state the invariant speaks of. */
  lemma PrivateMove(s: State, t: State, p: Pid)
    requires Owned(s) && Typed(t) && OnlyMoves(s, t, p) && t.log == s.log
    requires |t.players| == |s.players| && t.owner == s.owner
    requires forall x :: 0 <= x < |s.players| ==> t.players[x].state == s.players[x].state
    requires forall x: Ref :: StandingOf(t.procs[p].pc, x) == StandingOf(s.procs[p].pc, x)
    ensures AllOk(t)
  {
    forall x | 0 <= x < |t.players|
      ensures RecordOk(t, x)
    {
      assert RecordOk(s, x);
      Bystander(s, t, p, x);
    }
  }

  /** A record the mover holds, and now gives back or marks as matched. */
  lemma HandedOn(s: State, t: State, p: Pid, x: Ref)
    requires OnlyMoves(s, t, p) && t.log == s.log && t.owner == s.owner
    requires |s.owner| == |s.players| && x < |s.players| == |t.players| && s.owner[x] < |s.procs|
    requires RecordOk(s, x) && !s.procs[p].crashed && StandingOf(s.procs[p].pc, x) == Standing(true, false, false, false)
    requires t.players[x].state == Waiting || t.players[x].state == Matched
    requires StandingOf(t.procs[p].pc, x) ==
             if t.players[x].state == Waiting then NONE else Standing(false, true, true, false)
    ensures RecordOk(t, x)
  {
    assert StandingOk(s, p, x);
    forall q | 0 <= q < |s.procs|
      ensures StandingOk(t, q, x)
    {
      assert StandingOk(s, q, x);
    }
  }

  /** A record that changes hands: it was waiting, and now it is the mover's. */
  lemma TakenOver(s: State, t: State, p: Pid, x: Ref)
    requires OnlyMoves(s, t, p) && t.log == s.log
    requires |s.owner| == |s.players| && x < |s.players| == |t.players| && s.owner[x] < |s.procs|
    requires RecordOk(s, x) && s.players[x].state == Waiting && t.owner[x] == p
    requires t.players[x].state == Claimed || t.players[x].state == Evicted
    requires StandingOf(t.procs[p].pc, x) ==
             if t.players[x].state == Claimed then Standing(true, false, false, false)
             else Standing(false, false, true, true)
    ensures RecordOk(t, x)
  {
    forall q | 0 <= q < |s.procs|
      ensures StandingOk(t, q, x)
    {
      assert StandingOk(s, q, x);
    }
  }

  /** A record that has just been recorded. */
  lemma JustRecorded(s: State, t: State, p: Pid, x: Ref)
    requires OnlyMoves(s, t, p) && t.players == s.players && t.owner == s.owner && Recorded(t, x)
    requires |s.owner| == |s.players| && x < |s.players| && s.owner[x] < |s.procs|
    requires RecordOk(s, x) && StandingOf(s.procs[p].pc, x) == Standing(false, true, false, false)
    requires StandingOf(t.procs[p].pc, x) == NONE
    ensures RecordOk(t, x)
  {
    assert StandingOk(s, p, x);
    forall q | 0 <= q < |s.procs|
      ensures StandingOk(t, q, x)
    {
      assert StandingOk(s, q, x);
    }
  }

  // ---- Claiming, rolling back, marking ---------------------------------------------------

  lemma OwnedClaimNext(s: State, p: Pid)
    requires Owned(s) && p < |s.procs| && s.procs[p].pc.Claiming?
    requires ClaimStep(s, p).procs[p].pc.Stamping?
    ensures Typed(ClaimStep(s, p)) && AllOk(ClaimStep(s, p))
  {
    hide RecordOk;
    TypedClaim(s, p);
    var t := ClaimStep(s, p);
    var pc := s.procs[p].pc;
    forall x | 0 <= x < |t.players|
      ensures RecordOk(t, x)
    {
      assert RecordOk(s, x);
      if x == pc.cands[pc.next] {
        TakenOver(s, t, p, x);
      } else {
        Bystander(s, t, p, x);
      }
    }
  }

  lemma OwnedClaim(s: State, p: Pid)
    requires Owned(s) && p < |s.procs| && s.procs[p].pc.Claiming?
    ensures Typed(ClaimStep(s, p)) && AllOk(ClaimStep(s, p))
  {
    TypedClaim(s, p);
    var pc := s.procs[p].pc;
    assert pc.claimed[0..] == pc.claimed;
    if |pc.claimed| < MATCH_SIZE && pc.next < |pc.cands| && s.players[pc.cands[pc.next]].state == Waiting {
      OwnedClaimNext(s, p);
    } else {
      PrivateMove(s, ClaimStep(s, p), p);
    }
  }

  lemma OwnedStamp(s: State, p: Pid, now: nat)
    requires Owned(s) && p < |s.procs| && s.procs[p].pc.Stamping?
    ensures Typed(StampStep(s, p, now)) && AllOk(StampStep(s, p, now))
  {
    TypedStamp(s, p, now);
    PrivateMove(s, StampStep(s, p, now), p);
  }

  /** Going over the claims, the process is done with one of them. */
  lemma OwnedNext(s: State, t: State, p: Pid, claimed: seq<Ref>, next: nat)
    requires Owned(s) && Typed(t) && OnlyMoves(s, t, p) && !s.procs[p].crashed && t.log == s.log && t.owner == s.owner
    requires Distinct(claimed) && next < |claimed| && claimed[next] < |s.players| == |t.players|
    requires forall x :: 0 <= x < |s.players| && x != claimed[next] ==> t.players[x].state == s.players[x].state
    requires s.players[claimed[next]].state == Claimed ==>
      t.players[claimed[next]].state == (if s.procs[p].pc.RollingBack? then Waiting else Matched)
    requires
      || (exists seed :: s.procs[p].pc == Marking(seed, claimed, next) && t.procs[p].pc == Marking(seed, claimed, next + 1))
      || (s.procs[p].pc == RollingBack(claimed, next) && t.procs[p].pc == RollingBack(claimed, next + 1))
    ensures AllOk(t)
  {
    forall x | 0 <= x < |t.players|
      ensures RecordOk(t, x)
    {
      assert RecordOk(s, x);
      SplitAt(claimed, next, x);
      if x == claimed[next] {
        assert StandingOk(s, p, x);
        HandedOn(s, t, p, x);
      } else {
        Bystander(s, t, p, x);
      }
    }
  }

  lemma OwnedRelease(s: State, p: Pid)
    requires Owned(s) && p < |s.procs| && !s.procs[p].crashed && s.procs[p].pc.RollingBack?
    ensures Typed(ReleaseStep(s, p)) && AllOk(ReleaseStep(s, p))
  {
    TypedRelease(s, p);
    var pc := s.procs[p].pc;
    if pc.next == |pc.claimed| {
      PrivateMove(s, ReleaseStep(s, p), p);
    } else {
      OwnedNext(s, ReleaseStep(s, p), p, pc.claimed, pc.next);
    }
  }

  lemma OwnedMark(s: State, p: Pid, now: nat)
    requires Owned(s) && p < |s.procs| && !s.procs[p].crashed && s.procs[p].pc.Marking?
    ensures Typed(MarkStep(s, p, now)) && AllOk(MarkStep(s, p, now))
  {
    TypedMark(s, p, now);
    var pc := s.procs[p].pc;
    if pc.next == |pc.claimed| {
      assert pc.claimed[..pc.next] == pc.claimed[0..] == pc.claimed;
      PrivateMove(s, MarkStep(s, p, now), p);
    } else {
      OwnedNext(s, MarkStep(s, p, now), p, pc.claimed, pc.next);
    }
  }

  // ---- Leaving the pool ------------------------------------------------------------------

  lemma OwnedRemove(s: State, p: Pid)
    requires Owned(s) && p < |s.procs| && s.procs[p].pc.Removing?
    ensures Typed(RemoveStep(s, p)) && AllOk(RemoveStep(s, p))
  {
    hide RecordOk;
    TypedRemove(s, p);
    var t := RemoveStep(s, p);
    forall x | 0 <= x < |t.players|
      ensures RecordOk(t, x)
    {
      assert RecordOk(s, x);
      Bystander(s, t, p, x);
    }
  }

  lemma OwnedEvict(s: State, p: Pid)
    requires Owned(s) && p < |s.procs| && s.procs[p].pc.Cancelling?
    ensures Typed(EvictStep(s, p)) && AllOk(EvictStep(s, p))
  {
    hide RecordOk;
    TypedEvict(s, p);
    var t := EvictStep(s, p);
    var r := s.procs[p].pc.ref;
    forall x | 0 <= x < |t.players|
      ensures RecordOk(t, x)
    {
      assert RecordOk(s, x);
      if x == r && s.players[r].state == Waiting {
        TakenOver(s, t, p, x);
      } else {
        Bystander(s, t, p, x);
      }
    }
  }

  lemma OwnedUnlink(s: State, p: Pid)
    requires Owned(s) && p < |s.procs| && s.procs[p].pc.Evicting?
    ensures Typed(UnlinkStep(s, p)) && AllOk(UnlinkStep(s, p))
  {
    hide RecordOk;
    TypedUnlink(s, p);
    var t := UnlinkStep(s, p);
    forall x | 0 <= x < |t.players|
      ensures RecordOk(t, x)
    {
      assert RecordOk(s, x);
      Bystander(s, t, p, x);
    }
  }

  // ---- The reaper and new records --------------------------------------------------------

  lemma OwnedReap(s: State, p: Pid)
    requires Owned(s) && Enabled(s, Step(p, 0)) && s.procs[p].pc.Reaping? && ReapsOnlyCrashed(s, Step(p, 0))
    ensures Typed(ReapStep(s, p)) && AllOk(ReapStep(s, p))
  {
    TypedReap(s, p);
    var t := ReapStep(s, p);
    forall x | 0 <= x < |t.players|
      ensures RecordOk(t, x)
    {
      assert RecordOk(s, x);
      if t.players[x].state != s.players[x].state {
        forall q | 0 <= q < |s.procs|
          ensures StandingOk(t, q, x)
        {
          assert StandingOk(s, q, x);
        }
      } else {
        Bystander(s, t, p, x);
      }
    }
  }

  /** Nobody has anything to do with a record that does not exist yet. */
  lemma NoStandingYet(s: State, q: Pid, x: Ref)
    requires Typed(s) && q < |s.procs| && x >= |s.players|
    ensures StandingOf(s.procs[q].pc, x) == NONE
  {
    assert PcTyped(s.players, s.procs[q].pc);
  }

  lemma NotRecordedYet(s: State, x: Ref)
    requires Shaped(s) && x >= |s.players|
    ensures !Recorded(s, x)
  {
    forall i | 0 <= i < |s.log|
      ensures x !in s.log[i].claimed
    {
      assert MatchOfPlayers(s.players, s.log[i]);
    }
  }

  lemma OwnedInsert(s: State, p: Pid, now: nat)
    requires Owned(s) && p < |s.procs| && s.procs[p].pc.Enqueuing?
    ensures Typed(InsertStep(s, p, now)) && AllOk(InsertStep(s, p, now))
  {
    TypedInsert(s, p, now);
    var t := InsertStep(s, p, now);
    forall x | 0 <= x < |t.players|
      ensures RecordOk(t, x)
    {
      if x < |s.players| {
        assert RecordOk(s, x);
        Bystander(s, t, p, x);
      } else {
        forall q | 0 <= q < |s.procs|
          ensures StandingOk(t, q, x)
        {
          NoStandingYet(s, q, x);
        }
        NotRecordedYet(s, x);
        assert !Recorded(t, x);
      }
    }
  }

  // ---- Recording a match ----------------------------------------------------------------

  lemma NotYetRecorded(s: State, p: Pid, x: Ref)
    requires |s.owner| == |s.players| && x < |s.players| && s.owner[x] < |s.procs| && p < |s.procs|
    requires RecordOk(s, x) && StandingOf(s.procs[p].pc, x).taken
    ensures !Recorded(s, x)
  {
    assert StandingOk(s, p, x);
  }

  lemma RecordedGrows(s: State, t: State, m: MatchRecord, x: Ref)
    requires t.log == s.log + [m]
    ensures Recorded(t, x) <==> Recorded(s, x) || x in m.claimed
  {
    assert t.log[|s.log|] == m;
    if Recorded(s, x) {
      var i :| 0 <= i < |s.log| && x in s.log[i].claimed;
      assert t.log[i] == s.log[i];
    }
  }

  lemma PushedTwice(s: State, m: MatchRecord)
    requires NoneTwice(s.log) && forall x :: x in m.claimed ==> !Recorded(s, x)
    ensures NoneTwice(s.log + [m])
  {
  }

  /** Recording any match of the ten players a process has marked. */
  lemma OwnedRecord(s: State, p: Pid, m: MatchRecord, h: seq<MatchRecord>, bumps: seq<Bump>)
    requires Owned(s) && p < |s.procs| && s.procs[p].pc.Pushing? && m.claimed == s.procs[p].pc.claimed
    ensures var t := SetPc(s.(history := h, log := s.log + [m]), p, Counting(bumps));
      Typed(t) && AllOk(t) && NoneTwice(t.log)
  {
    hide RecordOk;
    hide NoneTwice;
    hide Recorded;
    var t := SetPc(s.(history := h, log := s.log + [m]), p, Counting(bumps));
    TypedUpdate(s, s.(history := h, log := s.log + [m]), p, Counting(bumps));
    forall x | 0 <= x < |s.players|
      ensures RecordOk(t, x)
      ensures x in m.claimed ==> !Recorded(s, x)
    {
      RecordedGrows(s, t, m, x);
      assert RecordOk(s, x);
      if x in m.claimed {
        NotYetRecorded(s, p, x);
        JustRecorded(s, t, p, x);
      } else {
        Bystander(s, t, p, x);
      }
    }
    assert forall x :: x in m.claimed ==> x < |s.players|;
    PushedTwice(s, m);
  }

  lemma OwnedPush(s: State, p: Pid)
    requires Owned(s) && p < |s.procs| && s.procs[p].pc.Pushing?
    ensures Typed(PushStep(s, p)) && AllOk(PushStep(s, p)) && NoneTwice(PushStep(s, p).log)
  {
    var m := Form(s, s.procs[p].pc.seed, s.procs[p].pc.claimed);
    hide Owned;
    hide AllOk;
    hide NoneTwice;
    OwnedRecord(s, p, m, Newest(s.history + [m], s.historyLimit), MatchBumps(m));
  }

  // ---- All steps -------------------------------------------------------------------------

  lemma OwnedCrash(s: State, p: Pid)
    requires Owned(s) && Enabled(s, Crash(p))
    ensures Typed(Exec(s, Crash(p))) && AllOk(Exec(s, Crash(p)))
  {
    var t := Exec(s, Crash(p));
    forall x | 0 <= x < |t.players|
      ensures RecordOk(t, x)
    {
      assert RecordOk(s, x);
      forall q | 0 <= q < |s.procs|
        ensures StandingOk(t, q, x)
      {
        assert StandingOk(s, q, x);
      }
    }
  }

  lemma OwnedStep(s: State, p: Pid, now: nat)
    requires Owned(s) && Enabled(s, Step(p, now)) && ReapsOnlyCrashed(s, Step(p, now))
    ensures var t := ExecStep(s, p, now); Typed(t) && AllOk(t) && NoneTwice(t.log)
  {
    hide AllOk;
    hide NoneTwice;
    hide Shaped;
    match s.procs[p].pc
    case Enqueuing(_, _) => OwnedInsert(s, p, now);
    case Claiming(_, _, _, _) => OwnedClaim(s, p);
    case Stamping(_, _, _, _) => OwnedStamp(s, p, now);
    case RollingBack(_, _) => OwnedRelease(s, p);
    case Marking(_, _, _) => OwnedMark(s, p, now);
    case Removing(_, _, _) => OwnedRemove(s, p);
    case Pushing(_, _) => OwnedPush(s, p);
    case Cancelling(_) => OwnedEvict(s, p);
    case Evicting(_) => OwnedUnlink(s, p);
    case Reaping(_, _, _) => OwnedReap(s, p);
    case Seeded(_) => OwnedCount(s, p);
    case Counting(_) => OwnedCount(s, p);
  }

  lemma OwnedCount(s: State, p: Pid)
    requires Owned(s) && p < |s.procs|
    ensures s.procs[p].pc.Seeded? ==> Typed(CycleStep(s, p)) && AllOk(CycleStep(s, p))
    ensures s.procs[p].pc.Counting? ==> Typed(CountStep(s, p)) && AllOk(CountStep(s, p))
  {
    if s.procs[p].pc.Seeded? {
      TypedCycle(s, p);
      PrivateMove(s, CycleStep(s, p), p);
    } else if s.procs[p].pc.Counting? {
      TypedCount(s, p);
      PrivateMove(s, CountStep(s, p), p);
    }
  }

  /** Ownership is kept by every step that resets no live worker's claim. */
  lemma OwnedKept(s: State, a: Action)
    requires Owned(s) && Enabled(s, a) && ReapsOnlyCrashed(s, a)
    ensures Owned(Exec(s, a))
  {
    ShapedKept(s, a);
    match a
    case Begin(p, op) => PrivateMove(s, Exec(s, a), p);
    case Found(p, cands) => PrivateMove(s, Exec(s, a), p);
    case Step(p, now) => OwnedStep(s, p, now);
    case Crash(p) => OwnedCrash(s, p);
  }

  lemma {:induction false} RunKeepsOwned(s: State, acts: seq<Action>, d: Assumptions)
    requires Owned(s) && Run(s, acts, d) && d.crashedOwners
    ensures Owned(Final(s, acts, d))
    decreases |acts|
  {
    if acts != [] {
      OwnedKept(s, acts[0]);
      RunKeepsOwned(Exec(s, acts[0]), acts[1..], d);
    }
  }

  /** Resetting the claim of a live process breaks its claim. */
  lemma ReapingLiveBreaks(s: State, p: Pid, now: nat)
    requires Owned(s) && Enabled(s, Step(p, now)) && !ReapsOnlyCrashed(s, Step(p, now))
    ensures !Owned(Exec(s, Step(p, now)))
  {
    var t := ReapStep(s, p);
    var r := s.procs[p].pc.todo[0];
    var q := s.owner[r];
    assert RecordOk(s, r) && q != p;
    assert StandingOf(t.procs[q].pc, r).held;
    if Typed(t) {
      assert !StandingOk(t, q, r);
      assert !RecordOk(t, r);
    }
  }

  /** That assumption is exactly what the ownership invariant needs. */
  lemma OwnedKeptExactlyWhen(s: State, a: Action)
    requires Owned(s) && Enabled(s, a)
    ensures Owned(Exec(s, a)) <==> ReapsOnlyCrashed(s, a)
  {
    assert Typed(s);
    hide Owned;
    hide Exec;
    if ReapsOnlyCrashed(s, a) {
      OwnedKept(s, a);
    } else {
      ReapingLiveBreaks(s, a.p, a.now);
    }
  }
}
