/** Which records the pool contains. Besides ownership this needs the other assumption: a record
    is inserted only under an id that is absent. */
module Membership {
  import opened Basics
  import opened Records
  import opened Protocol
  import opened Shape
  import opened Ownership

  ghost predicate InPool(s: State, x: Ref)
    requires x < |s.players|
  {
    s.players[x].id in s.primary && s.primary[s.players[x].id] == x
  }

  ghost predicate Queued(s: State, x: Ref)
    requires x < |s.players|
  {
    s.players[x].state == Waiting || s.players[x].state == Claimed
  }

  /** The pool contains a record exactly while it is waiting, claimed, or about to be removed by
      its owner; and whoever is about to remove it will find it. */
  ghost predicate MemberOk(s: State, x: Ref)
    requires |s.owner| == |s.players| && x < |s.players| && s.owner[x] < |s.procs|
  {
    && (forall q :: 0 <= q < |s.procs| && StandingOf(s.procs[q].pc, x).doomed ==> InPool(s, x))
    && (Queued(s, x) ==> InPool(s, x))
    && (InPool(s, x) ==> Queued(s, x) || StandingOf(s.procs[s.owner[x]].pc, x).doomed)
  }

  ghost predicate KeysOk(s: State) {
    forall id :: id in s.primary ==> s.primary[id] < |s.players| && s.players[s.primary[id]].id == id
  }

  ghost predicate Pooled(s: State)
    requires Typed(s)
  {
    KeysOk(s) && forall x :: 0 <= x < |s.players| ==> MemberOk(s, x)
  }

  /** Ownership and pool membership together. */
  ghost predicate Inv(s: State) {
    Owned(s) && Pooled(s)
  }

  lemma InitInv(s: State)
    requires Init(s)
    ensures Inv(s)
  {
    InitOwned(s);
  }

  // ---- One record, one step --------------------------------------------------------------

  /** A record that stays where it is. */
  lemma Stays(s: State, t: State, p: Pid, x: Ref)
    requires OnlyMoves(s, t, p) && |s.owner| == |s.players| && x < |s.players| && x < |t.players|
    requires s.owner[x] < |s.procs| && t.owner[x] < |t.procs| && MemberOk(s, x)
    requires InPool(t, x) == InPool(s, x) && Queued(t, x) == Queued(s, x)
    requires Queued(s, x) || t.owner[x] == s.owner[x]
    requires StandingOf(t.procs[p].pc, x).doomed == StandingOf(s.procs[p].pc, x).doomed
    ensures MemberOk(t, x)
  {
    forall q | 0 <= q < |t.procs| && StandingOf(t.procs[q].pc, x).doomed
      ensures InPool(t, x)
    {
      assert StandingOf(s.procs[q].pc, x).doomed;
    }
  }

  /** A queued record that its owner will now remove. */
  lemma BecomesDoomed(s: State, t: State, p: Pid, x: Ref)
    requires OnlyMoves(s, t, p) && |s.owner| == |s.players| && x < |s.players| == |t.players|
    requires s.owner[x] < |s.procs| && MemberOk(s, x) && Queued(s, x)
    requires t.primary == s.primary && t.players[x].id == s.players[x].id && !Queued(t, x) && t.owner[x] == p
    requires StandingOf(t.procs[p].pc, x).doomed
    ensures MemberOk(t, x)
  {
  }

  /** Whoever is about to remove a record has matched or evicted it, and so owns it. */
  lemma DoomedIsOwned(s: State, q: Pid, x: Ref)
    requires Typed(s) && x < |s.players| && q < |s.procs| && RecordOk(s, x) && StandingOf(s.procs[q].pc, x).doomed
    ensures s.owner[x] == q && !Queued(s, x)
  {
    assert StandingOk(s, q, x);
  }

  /** The record that is removed. */
  lemma Removed(s: State, t: State, p: Pid, r: Ref)
    requires OnlyMoves(s, t, p) && Typed(s) && t.players == s.players && t.owner == s.owner
    requires r < |s.players| && RecordOk(s, r) && StandingOf(s.procs[p].pc, r).doomed
    requires !InPool(t, r) && !StandingOf(t.procs[p].pc, r).doomed
    ensures MemberOk(t, r)
  {
    DoomedIsOwned(s, p, r);
    forall q | 0 <= q < |t.procs|
      ensures !StandingOf(t.procs[q].pc, r).doomed
    {
      if q != p && StandingOf(s.procs[q].pc, r).doomed {
        DoomedIsOwned(s, q, r);
      }
    }
  }

  /** Removing the id of a pooled record takes out that record and no other. */
  lemma RemovesOnly(s: State, t: State, r: Ref, x: Ref)
    requires r < |s.players| && x < |s.players| && InPool(s, r)
    requires t.players == s.players && t.primary == s.primary - {s.players[r].id}
    ensures InPool(t, x) == (x != r && InPool(s, x))
  {
  }

  // ---- All steps -------------------------------------------------------------------------

  /** Steps that leave the pool alone and doom nobody. */
  lemma PooledElsewhere(s: State, t: State, p: Pid)
    requires Inv(s) && Typed(t) && OnlyMoves(s, t, p) && t.primary == s.primary && |t.players| == |s.players|
    requires forall x :: 0 <= x < |s.players| ==> t.players[x].id == s.players[x].id && Queued(t, x) == Queued(s, x)
    requires forall x :: 0 <= x < |s.players| ==> Queued(s, x) || t.owner[x] == s.owner[x]
    requires forall x: Ref :: StandingOf(t.procs[p].pc, x).doomed == StandingOf(s.procs[p].pc, x).doomed
    ensures Pooled(t)
  {
    hide MemberOk;
    forall x | 0 <= x < |t.players|
      ensures MemberOk(t, x)
    {
      assert MemberOk(s, x);
      Stays(s, t, p, x);
    }
  }

  lemma PooledClaim(s: State, p: Pid)
    requires Inv(s) && p < |s.procs| && s.procs[p].pc.Claiming?
    ensures Typed(ClaimStep(s, p)) && Pooled(ClaimStep(s, p))
  {
    TypedClaim(s, p);
    PooledElsewhere(s, ClaimStep(s, p), p);
  }

  lemma PooledStamp(s: State, p: Pid, now: nat)
    requires Inv(s) && p < |s.procs| && s.procs[p].pc.Stamping?
    ensures Typed(StampStep(s, p, now)) && Pooled(StampStep(s, p, now))
  {
    TypedStamp(s, p, now);
    PooledElsewhere(s, StampStep(s, p, now), p);
  }

  lemma PooledRelease(s: State, p: Pid)
    requires Inv(s) && p < |s.procs| && s.procs[p].pc.RollingBack?
    ensures Typed(ReleaseStep(s, p)) && Pooled(ReleaseStep(s, p))
  {
    TypedRelease(s, p);
    PooledElsewhere(s, ReleaseStep(s, p), p);
  }

  lemma PooledReap(s: State, p: Pid)
    requires Inv(s) && p < |s.procs| && s.procs[p].pc.Reaping?
    ensures Typed(ReapStep(s, p)) && Pooled(ReapStep(s, p))
  {
    TypedReap(s, p);
    PooledElsewhere(s, ReapStep(s, p), p);
  }

  lemma PooledMarkNext(s: State, p: Pid, now: nat)
    requires Inv(s) && p < |s.procs| && !s.procs[p].crashed && s.procs[p].pc.Marking?
    requires s.procs[p].pc.next < |s.procs[p].pc.claimed|
    ensures Typed(MarkStep(s, p, now)) && Pooled(MarkStep(s, p, now))
  {
    TypedMark(s, p, now);
    var pc := s.procs[p].pc;
    var t := MarkStep(s, p, now);
    forall x | 0 <= x < |t.players|
      ensures MemberOk(t, x)
    {
      assert MemberOk(s, x) && RecordOk(s, x);
      SplitAt(pc.claimed, pc.next, x);
      if x == pc.claimed[pc.next] {
        assert StandingOk(s, p, x);
        BecomesDoomed(s, t, p, x);
      } else {
        Stays(s, t, p, x);
      }
    }
  }

  lemma PooledMark(s: State, p: Pid, now: nat)
    requires Inv(s) && p < |s.procs| && !s.procs[p].crashed && s.procs[p].pc.Marking?
    ensures Typed(MarkStep(s, p, now)) && Pooled(MarkStep(s, p, now))
  {
    var claimed := s.procs[p].pc.claimed;
    if s.procs[p].pc.next < |claimed| {
      PooledMarkNext(s, p, now);
    } else {
      TypedMark(s, p, now);
      assert claimed[..|claimed|] == claimed == claimed[0..];
      PooledElsewhere(s, MarkStep(s, p, now), p);
    }
  }

  lemma PooledRemoveNext(s: State, p: Pid)
    requires Inv(s) && p < |s.procs| && s.procs[p].pc.Removing? && s.procs[p].pc.next < |s.procs[p].pc.claimed|
    ensures Typed(RemoveStep(s, p)) && Pooled(RemoveStep(s, p))
  {
    TypedRemove(s, p);
    var pc := s.procs[p].pc;
    var t := RemoveStep(s, p);
    var r := pc.claimed[pc.next];
    assert MemberOk(s, r);
    SplitAt(pc.claimed, pc.next, r);
    assert InPool(s, r) && StandingOf(s.procs[p].pc, r).doomed;
    hide MemberOk;
    hide RecordOk;
    forall x | 0 <= x < |t.players|
      ensures MemberOk(t, x)
    {
      assert MemberOk(s, x) && RecordOk(s, x);
      SplitAt(pc.claimed, pc.next, x);
      RemovesOnly(s, t, r, x);
      if x == r {
        Removed(s, t, p, r);
      } else {
        Stays(s, t, p, x);
      }
    }
  }

  lemma PooledRemove(s: State, p: Pid)
    requires Inv(s) && p < |s.procs| && s.procs[p].pc.Removing?
    ensures Typed(RemoveStep(s, p)) && Pooled(RemoveStep(s, p))
  {
    if s.procs[p].pc.next < |s.procs[p].pc.claimed| {
      PooledRemoveNext(s, p);
    } else {
      TypedRemove(s, p);
      PooledElsewhere(s, RemoveStep(s, p), p);
    }
  }

  lemma PooledEvict(s: State, p: Pid)
    requires Inv(s) && p < |s.procs| && s.procs[p].pc.Cancelling?
    ensures Typed(EvictStep(s, p)) && Pooled(EvictStep(s, p))
  {
    hide MemberOk;
    TypedEvict(s, p);
    var t := EvictStep(s, p);
    var r := s.procs[p].pc.ref;
    forall x | 0 <= x < |t.players|
      ensures MemberOk(t, x)
    {
      assert MemberOk(s, x);
      if x == r && s.players[r].state == Waiting {
        BecomesDoomed(s, t, p, x);
      } else {
        Stays(s, t, p, x);
      }
    }
  }

  lemma PooledUnlink(s: State, p: Pid)
    requires Inv(s) && p < |s.procs| && s.procs[p].pc.Evicting?
    ensures Typed(UnlinkStep(s, p)) && Pooled(UnlinkStep(s, p))
  {
    TypedUnlink(s, p);
    var t := UnlinkStep(s, p);
    var r := s.procs[p].pc.ref;
    forall x | 0 <= x < |t.players|
      ensures MemberOk(t, x)
    {
      assert MemberOk(s, x) && RecordOk(s, x) && MemberOk(s, r);
      RemovesOnly(s, t, r, x);
      if x == r {
        Removed(s, t, p, r);
      } else {
        Stays(s, t, p, x);
      }
    }
  }

  lemma PooledInsert(s: State, p: Pid, now: nat)
    requires Inv(s) && p < |s.procs| && s.procs[p].pc.Enqueuing? && s.procs[p].pc.id !in s.primary
    ensures Typed(InsertStep(s, p, now)) && Pooled(InsertStep(s, p, now))
  {
    TypedInsert(s, p, now);
    var t := InsertStep(s, p, now);
    forall x | 0 <= x < |t.players|
      ensures MemberOk(t, x)
    {
      if x < |s.players| {
        assert MemberOk(s, x);
        Stays(s, t, p, x);
      } else {
        assert InPool(t, x);
      }
    }
  }

  lemma PooledCount(s: State, p: Pid)
    requires Inv(s) && p < |s.procs|
    ensures s.procs[p].pc.Seeded? ==> Typed(CycleStep(s, p)) && Pooled(CycleStep(s, p))
    ensures s.procs[p].pc.Counting? ==> Typed(CountStep(s, p)) && Pooled(CountStep(s, p))
  {
    if s.procs[p].pc.Seeded? {
      TypedCycle(s, p);
      PooledElsewhere(s, CycleStep(s, p), p);
    } else if s.procs[p].pc.Counting? {
      TypedCount(s, p);
      PooledElsewhere(s, CountStep(s, p), p);
    }
  }

  lemma PooledRecord(s: State, p: Pid, h: seq<MatchRecord>, log: seq<MatchRecord>, bumps: seq<Bump>)
    requires Inv(s) && p < |s.procs| && s.procs[p].pc.Pushing?
    ensures var t := SetPc(s.(history := h, log := log), p, Counting(bumps)); Typed(t) && Pooled(t)
  {
    TypedUpdate(s, s.(history := h, log := log), p, Counting(bumps));
    PooledElsewhere(s, SetPc(s.(history := h, log := log), p, Counting(bumps)), p);
  }

  lemma PooledPush(s: State, p: Pid)
    requires Inv(s) && p < |s.procs| && s.procs[p].pc.Pushing?
    ensures Typed(PushStep(s, p)) && Pooled(PushStep(s, p))
  {
    var m := Form(s, s.procs[p].pc.seed, s.procs[p].pc.claimed);
    hide Inv;
    hide Pooled;
    PooledRecord(s, p, Newest(s.history + [m], s.historyLimit), s.log + [m], MatchBumps(m));
  }

  lemma PooledCrash(s: State, p: Pid)
    requires Inv(s) && Enabled(s, Crash(p))
    ensures Pooled(Exec(s, Crash(p)))
  {
    var t := Exec(s, Crash(p));
    forall x | 0 <= x < |t.players|
      ensures MemberOk(t, x)
    {
      assert MemberOk(s, x);
      forall q | 0 <= q < |t.procs| && StandingOf(t.procs[q].pc, x).doomed
        ensures InPool(t, x)
      {
        assert StandingOf(s.procs[q].pc, x).doomed;
      }
    }
  }

  lemma PooledStep(s: State, p: Pid, now: nat)
    requires Inv(s) && Enabled(s, Step(p, now)) && InsertsFresh(s, Step(p, now))
    ensures Typed(ExecStep(s, p, now)) && Pooled(ExecStep(s, p, now))
  {
    hide Inv;
    hide Pooled;
    match s.procs[p].pc
    case Enqueuing(_, _) => PooledInsert(s, p, now);
    case Claiming(_, _, _, _) => PooledClaim(s, p);
    case Stamping(_, _, _, _) => PooledStamp(s, p, now);
    case RollingBack(_, _) => PooledRelease(s, p);
    case Marking(_, _, _) => PooledMark(s, p, now);
    case Removing(_, _, _) => PooledRemove(s, p);
    case Cancelling(_) => PooledEvict(s, p);
    case Evicting(_) => PooledUnlink(s, p);
    case Reaping(_, _, _) => PooledReap(s, p);
    case Seeded(_) => PooledCount(s, p);
    case Counting(_) => PooledCount(s, p);
    case Pushing(_, _) => PooledPush(s, p);
  }

  /** Pool membership is kept by every step that inserts no present id, even by one that resets
      a live worker's claim. */
  lemma PooledKept(s: State, a: Action)
    requires Inv(s) && Enabled(s, a) && InsertsFresh(s, a)
    ensures Typed(Exec(s, a)) && Pooled(Exec(s, a))
  {
    hide Pooled;
    TypedKept(s, a);
    match a
    case Begin(p, op) => PooledElsewhere(s, Exec(s, a), p);
    case Found(p, cands) => PooledElsewhere(s, Exec(s, a), p);
    case Step(p, now) => PooledStep(s, p, now);
    case Crash(p) => PooledCrash(s, p);
  }

  /** Inserting over an id that is present strands the record that was there. */
  lemma RacingInsertBreaks(s: State, p: Pid, now: nat)
    requires Inv(s) && p < |s.procs| && s.procs[p].pc.Enqueuing? && s.procs[p].pc.id in s.primary
    ensures Typed(InsertStep(s, p, now)) && !Pooled(InsertStep(s, p, now))
  {
    TypedInsert(s, p, now);
    var t := InsertStep(s, p, now);
    var r := s.primary[s.procs[p].pc.id];
    assert MemberOk(s, r) && InPool(s, r) && !InPool(t, r);
    if !Queued(s, r) {
      assert s.owner[r] != p;
      assert StandingOf(t.procs[s.owner[r]].pc, r).doomed;
    }
    assert !MemberOk(t, r);
  }

  /** That assumption is exactly what pool membership needs. */
  lemma PooledKeptExactlyWhen(s: State, a: Action)
    requires Inv(s) && Enabled(s, a)
    ensures Typed(Exec(s, a)) && (Pooled(Exec(s, a)) <==> InsertsFresh(s, a))
  {
    hide Inv;
    hide Pooled;
    if InsertsFresh(s, a) {
      PooledKept(s, a);
    } else {
      RacingInsertBreaks(s, a.p, a.now);
    }
  }

  /** Together: a step keeps the whole invariant if and only if it meets both assumptions. */
  lemma InvKeptExactlyWhen(s: State, a: Action)
    requires Inv(s) && Enabled(s, a)
    ensures Inv(Exec(s, a)) <==> Meets(s, a, BOTH)
  {
    hide Owned;
    hide Pooled;
    assert Owned(s);
    OwnedKeptExactlyWhen(s, a);
    PooledKeptExactlyWhen(s, a);
  }

  lemma {:induction false} RunKeepsInv(s: State, acts: seq<Action>, d: Assumptions)
    requires Inv(s) && Run(s, acts, d) && d == BOTH
    ensures Inv(Final(s, acts, d))
    decreases |acts|
  {
    if acts != [] {
      OwnedKept(s, acts[0]);
      PooledKept(s, acts[0]);
      RunKeepsInv(Exec(s, acts[0]), acts[1..], d);
    }
  }
}
