/** Conservation of the metrics: what every counter shows, in every reachable state, up to the
    updates still pending in the processes. A crashed process's pending updates stay pending.
    Only the queue size, which is about the pool, relies on the protocol's assumptions. */
module Conservation {
  import opened Basics
  import opened Records
  import opened Protocol
  import opened Shape
  import opened Ownership
  import opened Membership

  function BumpTotal(c: Counter, pending: seq<Bump>): int {
    if pending == [] then 0
    else (if pending[0].counter == c then pending[0].amount else 0) + BumpTotal(c, pending[1..])
  }

  /** How much a process still has to add to a counter to account for what it has done. */
  function Debt(c: Counter, pc: Pc): int {
    match pc
    case Counting(pending) => BumpTotal(c, pending)
    case Removing(_, _, next) => if c == QueueSize then -(next as int) else 0
    case Pushing(_, claimed) => if c == QueueSize then -(|claimed| as int) else 0
    case Evicting(_) => if c == Cancelled then 1 else 0
    case Reaping(_, _, recovered) => if c == Recovered then recovered else 0
    case Seeded(_) => if c == Cycles then 1 else 0
    case _ => 0
  }

  function Debts(c: Counter, procs: seq<Process>): (d: seq<int>)
    ensures |d| == |procs|
    ensures forall p :: 0 <= p < |d| ==> d[p] == Debt(c, procs[p].pc)
  {
    seq(|procs|, p requires 0 <= p < |procs| => Debt(c, procs[p].pc))
  }

  function LogSpreads(log: seq<MatchRecord>): seq<int> {
    seq(|log|, i requires 0 <= i < |log| => log[i].skillSpread)
  }

  function LogDeltas(log: seq<MatchRecord>): seq<int> {
    seq(|log|, i requires 0 <= i < |log| => log[i].teamDelta)
  }

  /** What a counter is meant to show. */
  function Meant(c: Counter, s: State): int {
    match c
    case Enqueued => |s.players|
    case Cancelled => s.evictions
    case Created => |s.log|
    case PlayersMatched => 10 * |s.log|
    case QueueSize => |s.primary|
    case SpreadSum => Sum(LogSpreads(s.log))
    case SpreadCount => |s.log|
    case DeltaSum => Sum(LogDeltas(s.log))
    case DeltaCount => |s.log|
    case Recovered => s.resets
    case Cycles => s.attempts
    case Insufficient => s.shortages
    case ClaimFailures => s.rollbacks
  }

  /** Counters plus pending updates show what they are meant to show: all of them, or all but
      the queue size. */
  ghost predicate Balanced(s: State, pool: bool)
    requires Typed(s)
  {
    forall c: Counter :: (c == QueueSize ==> pool) ==> s.metrics[c] + Sum(Debts(c, s.procs)) == Meant(c, s)
  }

  /** An attempt with a seed and no outcome yet. */
  function InFlight(pc: Pc): int {
    match pc
    case Seeded(_) => 1
    case Scanning(_) => 1
    case Claiming(_, _, _, _) => 1
    case Stamping(_, _, _, _) => 1
    case RollingBack(_, _) => 1
    case Marking(_, _, _) => 1
    case Removing(_, _, _) => 1
    case Pushing(_, _) => 1
    case _ => 0
  }

  function InFlightOf(procs: seq<Process>): (d: seq<int>)
    ensures |d| == |procs|
    ensures forall p :: 0 <= p < |d| ==> d[p] == InFlight(procs[p].pc)
  {
    seq(|procs|, p requires 0 <= p < |procs| => InFlight(procs[p].pc))
  }

  /** Every attempt that found a seed came up short, rolled back, recorded a match, or is in
      flight, its worker live or crashed. */
  ghost predicate AttemptsAccounted(s: State) {
    s.attempts == s.shortages + s.rollbacks + |s.log| + Sum(InFlightOf(s.procs))
  }

  /** Players a process has taken out of the pool without having recorded their match, less a
      player evicted but still in the pool. */
  function Missing(pc: Pc): int {
    match pc
    case Removing(_, _, next) => next
    case Pushing(_, claimed) => |claimed|
    case Evicting(_) => -1
    case _ => 0
  }

  function MissingOf(procs: seq<Process>): (d: seq<int>)
    ensures |d| == |procs|
    ensures forall p :: 0 <= p < |d| ==> d[p] == Missing(procs[p].pc)
  {
    seq(|procs|, p requires 0 <= p < |procs| => Missing(procs[p].pc))
  }

  /** Every record ever created is in the pool, in a recorded match, evicted, or in transit. */
  ghost predicate AllAccounted(s: State) {
    |s.players| == |s.primary| + 10 * |s.log| + s.evictions + Sum(MissingOf(s.procs))
  }

  ghost predicate Books(s: State, pool: bool) {
    && Typed(s) && Balanced(s, pool) && AttemptsAccounted(s)
    && (pool ==> Inv(s) && AllAccounted(s))
  }

  // ---- One step --------------------------------------------------------------------------

  lemma {:induction false} ZeroSum(d: seq<int>)
    requires forall i :: 0 <= i < |d| ==> d[i] == 0
    ensures Sum(d) == 0
  {
    if d != [] {
      ZeroSum(d[1..]);
    }
  }

  lemma InitBooks(s: State, pool: bool)
    requires Init(s)
    ensures Books(s, pool)
  {
    InitInv(s);
    forall c: Counter
      ensures s.metrics[c] + Sum(Debts(c, s.procs)) == Meant(c, s)
    {
      ZeroSum(Debts(c, s.procs));
    }
    ZeroSum(MissingOf(s.procs));
    ZeroSum(InFlightOf(s.procs));
  }

  /** A step settles when what it changes in the counter, in the mover's debt, and in the
      meant value cancel out, for the counters in question and for the head counts. */
  ghost predicate Settles(s: State, t: State, p: Pid, pool: bool)
    requires Typed(s) && Typed(t)
  {
    && p < |s.procs| == |t.procs| && t.procs == s.procs[p := t.procs[p]]
    && (forall c: Counter :: (c == QueueSize ==> pool) ==>
          t.metrics[c] - s.metrics[c] + Debt(c, t.procs[p].pc) - Debt(c, s.procs[p].pc) == Meant(c, t) - Meant(c, s))
    && t.attempts - s.attempts == t.shortages - s.shortages + t.rollbacks - s.rollbacks + |t.log| - |s.log|
       + InFlight(t.procs[p].pc) - InFlight(s.procs[p].pc)
    && (pool ==>
          |t.players| - |s.players| == |t.primary| - |s.primary| + 10 * (|t.log| - |s.log|)
          + t.evictions - s.evictions + Missing(t.procs[p].pc) - Missing(s.procs[p].pc))
  }

  lemma SettledCounter(s: State, t: State, p: Pid, c: Counter)
    requires Typed(s) && Typed(t) && p < |s.procs| == |t.procs| && t.procs == s.procs[p := t.procs[p]]
    requires s.metrics[c] + Sum(Debts(c, s.procs)) == Meant(c, s)
    requires t.metrics[c] - s.metrics[c] + Debt(c, t.procs[p].pc) - Debt(c, s.procs[p].pc) == Meant(c, t) - Meant(c, s)
    ensures t.metrics[c] + Sum(Debts(c, t.procs)) == Meant(c, t)
  {
    SumUpdate(Debts(c, s.procs), p, Debt(c, t.procs[p].pc));
    assert Debts(c, t.procs) == Debts(c, s.procs)[p := Debt(c, t.procs[p].pc)];
  }

  lemma SettledBooks(s: State, t: State, p: Pid, pool: bool)
    requires Books(s, pool) && Typed(t) && (pool ==> Inv(t)) && p < |s.procs| == |t.procs| && Settles(s, t, p, pool)
    ensures Books(t, pool)
  {
    hide Inv;
    hide Meant;
    hide Debt;
    forall c: Counter | c == QueueSize ==> pool
      ensures t.metrics[c] + Sum(Debts(c, t.procs)) == Meant(c, t)
    {
      SettledCounter(s, t, p, c);
    }
    SumUpdate(MissingOf(s.procs), p, Missing(t.procs[p].pc));
    assert MissingOf(t.procs) == MissingOf(s.procs)[p := Missing(t.procs[p].pc)];
    SumUpdate(InFlightOf(s.procs), p, InFlight(t.procs[p].pc));
    assert InFlightOf(t.procs) == InFlightOf(s.procs)[p := InFlight(t.procs[p].pc)];
  }

  lemma BumpCons(c: Counter, b: Bump, rest: seq<Bump>)
    ensures BumpTotal(c, [b] + rest) == (if b.counter == c then b.amount else 0) + BumpTotal(c, rest)
  {
    assert ([b] + rest)[1..] == rest;
  }

  lemma BumpTwo(c: Counter, a: Bump, b: Bump)
    ensures BumpTotal(c, [a, b]) == (if a.counter == c then a.amount else 0) + (if b.counter == c then b.amount else 0)
  {
    BumpCons(c, b, []);
    BumpCons(c, a, [b]);
    assert [a] + [b] == [a, b] && [b] + [] == [b];
  }

  function Amount(c: Counter, b: Bump): int {
    if b.counter == c then b.amount else 0
  }

  lemma BumpSeven(c: Counter, b: seq<Bump>)
    requires |b| == 7
    ensures BumpTotal(c, b) == Amount(c, b[0]) + Amount(c, b[1]) + Amount(c, b[2]) + Amount(c, b[3])
                               + Amount(c, b[4]) + Amount(c, b[5]) + Amount(c, b[6])
  {
    assert b[1..][1..] == b[2..] && b[2..][1..] == b[3..] && b[3..][1..] == b[4..]
        && b[4..][1..] == b[5..] && b[5..][1..] == b[6..] && b[6..][1..] == [];
    assert BumpTotal(c, b[6..]) == Amount(c, b[6]);
    assert BumpTotal(c, b[5..]) == Amount(c, b[5]) + BumpTotal(c, b[6..]);
    assert BumpTotal(c, b[4..]) == Amount(c, b[4]) + BumpTotal(c, b[5..]);
    assert BumpTotal(c, b[3..]) == Amount(c, b[3]) + BumpTotal(c, b[4..]);
    assert BumpTotal(c, b[2..]) == Amount(c, b[2]) + BumpTotal(c, b[3..]);
    assert BumpTotal(c, b[1..]) == Amount(c, b[1]) + BumpTotal(c, b[2..]);
  }

  lemma BumpsOfMatch(c: Counter, m: MatchRecord)
    ensures BumpTotal(c, MatchBumps(m)) ==
      match c
      case Created => 1
      case PlayersMatched => 10
      case QueueSize => -10
      case SpreadSum => m.skillSpread
      case SpreadCount => 1
      case DeltaSum => m.teamDelta
      case DeltaCount => 1
      case _ => 0
  {
    hide BumpTotal;
    BumpSeven(c, MatchBumps(m));
  }

  lemma RemoveShrinks(m: map<Uuid, Ref>, id: Uuid)
    requires id in m
    ensures |m - {id}| == |m| - 1
  {
    assert (m - {id}).Keys == m.Keys - {id};
    assert |(m - {id}).Keys| == |m.Keys| - 1;
  }

  lemma InsertGrows(m: map<Uuid, Ref>, id: Uuid, r: Ref)
    requires id !in m
    ensures |m[id := r]| == |m| + 1
  {
    assert m[id := r].Keys == m.Keys + {id};
  }

  lemma SettlesInsert(s: State, p: Pid, now: nat, pool: bool)
    requires Typed(s) && p < |s.procs| && s.procs[p].pc.Enqueuing? && (pool ==> s.procs[p].pc.id !in s.primary)
    ensures Typed(InsertStep(s, p, now)) && Settles(s, InsertStep(s, p, now), p, pool)
  {
    TypedInsert(s, p, now);
    if pool {
      InsertGrows(s.primary, s.procs[p].pc.id, |s.players|);
    }
    forall c: Counter
      ensures BumpTotal(c, [Bump(Enqueued, 1), Bump(QueueSize, 1)]) == if c == Enqueued || c == QueueSize then 1 else 0
    {
      BumpTwo(c, Bump(Enqueued, 1), Bump(QueueSize, 1));
    }
  }

  lemma DoomedIsInPool(s: State, p: Pid, claimed: seq<Ref>, next: nat)
    requires Inv(s) && p < |s.procs| && s.procs[p].pc.Removing?
    requires s.procs[p].pc.claimed == claimed && s.procs[p].pc.next == next < |claimed|
    ensures s.players[claimed[next]].id in s.primary
  {
    var r := claimed[next];
    assert r in claimed[next..];
    assert MemberOk(s, r);
  }

  lemma EvictedIsInPool(s: State, p: Pid)
    requires Inv(s) && p < |s.procs| && s.procs[p].pc.Evicting?
    ensures s.players[s.procs[p].pc.ref].id in s.primary
  {
    var r := s.procs[p].pc.ref;
    assert MemberOk(s, r);
  }

  /** Taking one entry out of the pool, and owing that to the queue size. */
  lemma SettlesUnpool(s: State, p: Pid, id: Uuid, pc: Pc, pool: bool)
    requires Typed(s) && p < |s.procs| && (pool ==> id in s.primary) && PcTyped(s.players, pc)
    requires forall c: Counter :: Debt(c, pc) - Debt(c, s.procs[p].pc) == if c == QueueSize then -1 else 0
    requires Missing(pc) - Missing(s.procs[p].pc) == 1 && InFlight(pc) == InFlight(s.procs[p].pc)
    ensures var t := SetPc(s.(primary := s.primary - {id}), p, pc); Typed(t) && Settles(s, t, p, pool)
  {
    TypedUpdate(s, s.(primary := s.primary - {id}), p, pc);
    if pool {
      RemoveShrinks(s.primary, id);
    }
  }

  lemma RemovalDebt(seed: SeedView, claimed: seq<Ref>, next: nat)
    ensures var before, after := Removing(seed, claimed, next), Removing(seed, claimed, next + 1);
      && (forall c: Counter :: Debt(c, after) - Debt(c, before) == if c == QueueSize then -1 else 0)
      && Missing(after) - Missing(before) == 1 && InFlight(after) == InFlight(before)
  {
  }

  lemma SettlesRemove(s: State, p: Pid, pool: bool)
    requires Typed(s) && p < |s.procs| && s.procs[p].pc.Removing?
    requires var pc := s.procs[p].pc;
      pool && pc.next < |pc.claimed| ==> s.players[pc.claimed[pc.next]].id in s.primary
    ensures Typed(RemoveStep(s, p)) && Settles(s, RemoveStep(s, p), p, pool)
  {
    TypedRemove(s, p);
    var pc := s.procs[p].pc;
    assert PcTyped(s.players, pc);
    if pc.next < |pc.claimed| {
      hide Settles;
      RemovalDebt(pc.seed, pc.claimed, pc.next);
      hide Debt;
      SettlesUnpool(s, p, s.players[pc.claimed[pc.next]].id, Removing(pc.seed, pc.claimed, pc.next + 1), pool);
    }
  }

  lemma SettlesUnlink(s: State, p: Pid, pool: bool)
    requires Typed(s) && p < |s.procs| && s.procs[p].pc.Evicting?
    requires pool ==> s.players[s.procs[p].pc.ref].id in s.primary
    ensures Typed(UnlinkStep(s, p)) && Settles(s, UnlinkStep(s, p), p, pool)
  {
    var pc := Counting([Bump(QueueSize, -1), Bump(Cancelled, 1)]);
    forall c: Counter
      ensures Debt(c, pc) - Debt(c, s.procs[p].pc) == if c == QueueSize then -1 else 0
    {
      BumpTwo(c, Bump(QueueSize, -1), Bump(Cancelled, 1));
    }
    SettlesUnpool(s, p, s.players[s.procs[p].pc.ref].id, pc, pool);
  }

  lemma MeantAfterRecord(s: State, s1: State, m: MatchRecord, c: Counter)
    requires s1.log == s.log + [m] && s1.players == s.players && s1.primary == s.primary
    requires s1.evictions == s.evictions && s1.resets == s.resets
    requires s1.attempts == s.attempts && s1.shortages == s.shortages && s1.rollbacks == s.rollbacks
    ensures Meant(c, s1) - Meant(c, s) == BumpTotal(c, MatchBumps(m)) + (if c == QueueSize then 10 else 0)
  {
    BumpsOfMatch(c, m);
    assert LogSpreads(s1.log) == LogSpreads(s.log) + [m.skillSpread as int];
    SumConcat(LogSpreads(s.log), [m.skillSpread as int]);
    assert LogDeltas(s1.log) == LogDeltas(s.log) + [m.teamDelta as int];
    SumConcat(LogDeltas(s.log), [m.teamDelta as int]);
  }

  /** Recording any match of the ten players the process has removed. */
  lemma SettlesRecord(s: State, p: Pid, m: MatchRecord)
    requires Typed(s) && p < |s.procs| && s.procs[p].pc.Pushing?
    ensures var s1 := s.(history := Newest(s.history + [m], s.historyLimit), log := s.log + [m]);
      var t := SetPc(s1, p, Counting(MatchBumps(m)));
      Typed(t) && Settles(s, t, p, true)
  {
    hide MatchBumps;
    hide Meant;
    var s1 := s.(history := Newest(s.history + [m], s.historyLimit), log := s.log + [m]);
    var bumps := MatchBumps(m);
    var t := SetPc(s1, p, Counting(bumps));
    TypedUpdate(s, s1, p, Counting(bumps));
    forall c: Counter
      ensures t.metrics[c] - s.metrics[c] + Debt(c, t.procs[p].pc) - Debt(c, s.procs[p].pc) == Meant(c, t) - Meant(c, s)
    {
      MeantAfterRecord(s, t, m, c);
    }
  }

  /** Performing one pending update. */
  lemma SettlesCount(s: State, p: Pid)
    requires Typed(s) && p < |s.procs|
    ensures s.procs[p].pc.Counting? ==> Typed(CountStep(s, p)) && Settles(s, CountStep(s, p), p, true)
    ensures s.procs[p].pc.Seeded? ==> Typed(CycleStep(s, p)) && Settles(s, CycleStep(s, p), p, true)
  {
    if s.procs[p].pc.Counting? {
      TypedCount(s, p);
      var pending := s.procs[p].pc.pending;
      if pending != [] {
        assert pending == [pending[0]] + pending[1..];
      }
    } else if s.procs[p].pc.Seeded? {
      TypedCycle(s, p);
    }
  }

  lemma BumpOne(c: Counter, b: Counter, n: int)
    ensures BumpTotal(c, [Bump(b, n)]) == if c == b then n else 0
  {
    BumpCons(c, Bump(b, n), []);
    assert [Bump(b, n)] + [] == [Bump(b, n)];
  }

  lemma SettlesReapEnd(s: State, p: Pid)
    requires Typed(s) && p < |s.procs| && s.procs[p].pc.Reaping? && s.procs[p].pc.todo == []
    ensures Typed(ReapStep(s, p)) && Settles(s, ReapStep(s, p), p, true)
  {
    TypedReap(s, p);
    var n := s.procs[p].pc.recovered;
    forall c: Counter
      ensures BumpTotal(c, [Bump(Recovered, n)]) == if c == Recovered then n else 0
    {
      BumpOne(c, Recovered, n);
    }
  }

  lemma SettlesReapNext(s: State, p: Pid)
    requires Typed(s) && p < |s.procs| && s.procs[p].pc.Reaping? && s.procs[p].pc.todo != []
    ensures Typed(ReapStep(s, p)) && Settles(s, ReapStep(s, p), p, true)
  {
    hide BumpTotal;
    hide Reap;
    hide Sum;
    hide LogSpreads;
    hide LogDeltas;
    TypedReap(s, p);
    var pc := s.procs[p].pc;
    if Stale(s.players[pc.todo[0]], pc.nowMs, s.config.staleClaimTimeoutMs) {
      assert ReapStep(s, p).resets == s.resets + 1;
    } else {
      assert ReapStep(s, p).resets == s.resets;
    }
  }

  lemma SettlesReap(s: State, p: Pid)
    requires Typed(s) && p < |s.procs| && s.procs[p].pc.Reaping?
    ensures Typed(ReapStep(s, p)) && Settles(s, ReapStep(s, p), p, true)
  {
    hide Settles;
    if s.procs[p].pc.todo == [] {
      SettlesReapEnd(s, p);
    } else {
      SettlesReapNext(s, p);
    }
  }

  lemma SettlesEvict(s: State, p: Pid)
    requires Typed(s) && p < |s.procs| && s.procs[p].pc.Cancelling?
    ensures Typed(EvictStep(s, p)) && Settles(s, EvictStep(s, p), p, true)
  {
    hide BumpTotal;
    TypedEvict(s, p);
  }

  /** Before a match is committed to, and outside cancellations, there is nothing to count. */
  predicate NotInCommit(pc: Pc) {
    || pc.Idle? || pc.Enqueuing? || pc.Scanning? || pc.Claiming? || pc.Stamping? || pc.RollingBack? || pc.Marking?
    || pc.Cancelling?
  }

  /** Moves that touch nothing the counters are about. */
  lemma SettlesPrivate(s: State, t: State, p: Pid)
    requires Typed(s) && Typed(t) && p < |s.procs| == |t.procs| && t.procs == s.procs[p := t.procs[p]]
    requires t.metrics == s.metrics && t.log == s.log && t.primary == s.primary && |t.players| == |s.players|
    requires t.evictions == s.evictions && t.resets == s.resets
    requires t.attempts == s.attempts && t.shortages == s.shortages && t.rollbacks == s.rollbacks
    requires NotInCommit(s.procs[p].pc) && NotInCommit(t.procs[p].pc)
    requires InFlight(s.procs[p].pc) == InFlight(t.procs[p].pc)
    ensures Settles(s, t, p, true)
  {
  }

  lemma SettlesClaim(s: State, p: Pid)
    requires Typed(s) && p < |s.procs| && s.procs[p].pc.Claiming?
    ensures Typed(ClaimStep(s, p)) && Settles(s, ClaimStep(s, p), p, true)
  {
    hide Settles;
    TypedClaim(s, p);
    SettlesPrivate(s, ClaimStep(s, p), p);
  }

  lemma SettlesStamp(s: State, p: Pid, now: nat)
    requires Typed(s) && p < |s.procs| && s.procs[p].pc.Stamping?
    ensures Typed(StampStep(s, p, now)) && Settles(s, StampStep(s, p, now), p, true)
  {
    hide Settles;
    TypedStamp(s, p, now);
    SettlesPrivate(s, StampStep(s, p, now), p);
  }

  lemma SettlesRelease(s: State, p: Pid)
    requires Typed(s) && p < |s.procs| && s.procs[p].pc.RollingBack?
    ensures Typed(ReleaseStep(s, p)) && Settles(s, ReleaseStep(s, p), p, true)
  {
    TypedRelease(s, p);
    forall c: Counter
      ensures BumpTotal(c, [Bump(ClaimFailures, 1)]) == if c == ClaimFailures then 1 else 0
    {
      BumpOne(c, ClaimFailures, 1);
    }
    if s.procs[p].pc.next < |s.procs[p].pc.claimed| {
      SettlesPrivate(s, ReleaseStep(s, p), p);
    }
  }

  lemma SettlesMark(s: State, p: Pid, now: nat)
    requires Typed(s) && p < |s.procs| && s.procs[p].pc.Marking?
    ensures Typed(MarkStep(s, p, now)) && Settles(s, MarkStep(s, p, now), p, true)
  {
    TypedMark(s, p, now);
    if s.procs[p].pc.next < |s.procs[p].pc.claimed| {
      SettlesPrivate(s, MarkStep(s, p, now), p);
    }
  }

  lemma SettlesAll(s: State, t: State, p: Pid, pool: bool)
    requires Typed(s) && Typed(t) && p < |s.procs| == |t.procs| && Settles(s, t, p, true)
    ensures Settles(s, t, p, pool)
  {
  }

  /** The steps that take an entry out of the pool, or put one in. */
  lemma SettlesPoolStep(s: State, p: Pid, now: nat, pool: bool)
    requires Typed(s) && (pool ==> Inv(s)) && Enabled(s, Step(p, now)) && (pool ==> InsertsFresh(s, Step(p, now)))
    requires var pc := s.procs[p].pc; pc.Enqueuing? || pc.Removing? || pc.Evicting?
    ensures Typed(ExecStep(s, p, now)) && Settles(s, ExecStep(s, p, now), p, pool)
  {
    hide Settles;
    hide Inv;
    match s.procs[p].pc
    case Enqueuing(_, _) => SettlesInsert(s, p, now, pool);
    case Removing(_, claimed, next) =>
      if pool && next < |claimed| {
        DoomedIsInPool(s, p, claimed, next);
      }
      SettlesRemove(s, p, pool);
    case Evicting(ref) =>
      if pool {
        EvictedIsInPool(s, p);
      }
      SettlesUnlink(s, p, pool);
  }

  lemma SettlesOtherStep(s: State, p: Pid, now: nat)
    requires Typed(s) && Enabled(s, Step(p, now))
    requires var pc := s.procs[p].pc; !pc.Enqueuing? && !pc.Removing? && !pc.Evicting?
    ensures Typed(ExecStep(s, p, now)) && |ExecStep(s, p, now).procs| == |s.procs|
    ensures Settles(s, ExecStep(s, p, now), p, true)
  {
    hide Settles;
    ProgressStep(s, p, now);
    match s.procs[p].pc
    case Pushing(seed, claimed) => SettlesRecord(s, p, Form(s, seed, claimed));
    case Counting(_) => SettlesCount(s, p);
    case Seeded(_) => SettlesCount(s, p);
    case Cancelling(_) => SettlesEvict(s, p);
    case Reaping(_, _, _) => SettlesReap(s, p);
    case Claiming(_, _, _, _) => SettlesClaim(s, p);
    case Stamping(_, _, _, _) => SettlesStamp(s, p, now);
    case RollingBack(_, _) => SettlesRelease(s, p);
    case Marking(_, _, _) => SettlesMark(s, p, now);
  }

  lemma SettlesStep(s: State, p: Pid, now: nat, pool: bool)
    requires Books(s, pool) && Enabled(s, Step(p, now)) && (pool ==> InsertsFresh(s, Step(p, now)))
    ensures Typed(ExecStep(s, p, now)) && Settles(s, ExecStep(s, p, now), p, pool)
  {
    hide Settles;
    hide ExecStep;
    var pc := s.procs[p].pc;
    if pc.Enqueuing? || pc.Removing? || pc.Evicting? {
      SettlesPoolStep(s, p, now, pool);
    } else {
      SettlesOtherStep(s, p, now);
      SettlesAll(s, ExecStep(s, p, now), p, pool);
    }
  }

  lemma SettlesBegin(s: State, p: Pid, op: Operation)
    requires Typed(s) && Enabled(s, Begin(p, op))
    ensures Typed(ExecBegin(s, p, op)) && Settles(s, ExecBegin(s, p, op), p, true)
  {
    TypedBegin(s, p, op);
  }

  lemma SettlesFound(s: State, p: Pid, cands: seq<Ref>)
    requires Typed(s) && Enabled(s, Found(p, cands))
    ensures Typed(ExecFound(s, p, cands)) && Settles(s, ExecFound(s, p, cands), p, true)
  {
    TypedFound(s, p, cands);
    forall c: Counter
      ensures BumpTotal(c, [Bump(Insufficient, 1)]) == if c == Insufficient then 1 else 0
    {
      BumpOne(c, Insufficient, 1);
    }
  }

  lemma SettlesCrash(s: State, p: Pid)
    requires Typed(s) && Enabled(s, Crash(p))
    ensures Typed(Exec(s, Crash(p))) && Settles(s, Exec(s, Crash(p)), p, true)
  {
  }

  lemma SettlesAction(s: State, a: Action, pool: bool)
    requires Books(s, pool) && Enabled(s, a) && (pool ==> InsertsFresh(s, a))
    ensures Typed(Exec(s, a)) && |Exec(s, a).procs| == |s.procs| && Settles(s, Exec(s, a), a.p, pool)
  {
    hide Settles;
    match a
    case Begin(p, op) =>
      SettlesBegin(s, p, op);
      SettlesAll(s, Exec(s, a), p, pool);
    case Found(p, cands) =>
      SettlesFound(s, p, cands);
      SettlesAll(s, Exec(s, a), p, pool);
    case Step(p, now) =>
      ProgressStep(s, p, now);
      SettlesStep(s, p, now, pool);
    case Crash(p) =>
      SettlesCrash(s, p);
      SettlesAll(s, Exec(s, a), p, pool);
  }

  lemma BooksKept(s: State, a: Action, pool: bool)
    requires Books(s, pool) && Enabled(s, a) && (pool ==> Meets(s, a, BOTH))
    ensures Books(Exec(s, a), pool)
  {
    hide Exec;
    SettlesAction(s, a, pool);
    if pool {
      OwnedKept(s, a);
      PooledKept(s, a);
    }
    SettledBooks(s, Exec(s, a), a.p, pool);
  }

  lemma {:induction false} RunKeepsBooks(s: State, acts: seq<Action>, d: Assumptions, pool: bool)
    requires Books(s, pool) && Run(s, acts, d) && (pool ==> d == BOTH)
    ensures Books(Final(s, acts, d), pool)
    decreases |acts|
  {
    if acts != [] {
      BooksKept(s, acts[0], pool);
      RunKeepsBooks(Exec(s, acts[0]), acts[1..], d, pool);
    }
  }

  // ---- Whole runs ------------------------------------------------------------------------

  /** In every reachable state each counter, together with the updates still pending in live
      and crashed processes, shows exactly what it is meant to show. Only for the queue size
      are the assumptions needed. */
  lemma CountersAreConserved(s: State, acts: seq<Action>, d: Assumptions, c: Counter)
    requires Init(s) && Run(s, acts, d) && (c == QueueSize ==> d == BOTH)
    ensures var t := Final(s, acts, d);
      t.metrics[c] == Meant(c, t) - Sum(Debts(c, t.procs))
  {
    InitBooks(s, c == QueueSize);
    RunKeepsBooks(s, acts, d, c == QueueSize);
  }

  /** In every reachable state, with no assumption: every attempt that found a seed has come up
      short, failed to claim, or recorded a match, or is in flight. */
  lemma AttemptsAreConserved(s: State, acts: seq<Action>, d: Assumptions)
    requires Init(s) && Run(s, acts, d)
    ensures AttemptsAccounted(Final(s, acts, d))
  {
    InitBooks(s, false);
    RunKeepsBooks(s, acts, d, false);
  }

  /** No process is between taking effect and being counted. Crashed workers may remain, as
      long as they crashed before they began to remove players. */
  ghost predicate Quiescent(s: State) {
    forall p :: 0 <= p < |s.procs| ==> NotInCommit(s.procs[p].pc)
  }

  lemma QuiescentCounter(s: State, c: Counter, pool: bool)
    requires Books(s, pool) && Quiescent(s) && (c == QueueSize ==> pool)
    ensures s.metrics[c] == Meant(c, s)
  {
    ZeroSum(Debts(c, s.procs));
  }

  lemma QuiescentCensus(s: State)
    requires Books(s, true) && Quiescent(s)
    ensures |s.players| == |s.primary| + 10 * |s.log| + s.evictions
  {
    ZeroSum(MissingOf(s.procs));
  }

  ghost predicate AttemptsAgree(s: State)
    requires Typed(s)
  {
    var m := s.metrics;
    && m[Cycles] == m[Insufficient] + m[ClaimFailures] + m[Created] + Sum(InFlightOf(s.procs))
    && m[PlayersMatched] == 10 * m[Created]
    && m[Created] == |s.log| && m[SpreadCount] == |s.log| && m[DeltaCount] == |s.log|
    && m[Recovered] == s.resets
  }

  lemma BooksAttempts(t: State)
    requires Books(t, false) && Quiescent(t)
    ensures AttemptsAgree(t)
  {
    hide Balanced;
    hide Quiescent;
    QuiescentCounter(t, Cycles, false);
    QuiescentCounter(t, Insufficient, false);
    QuiescentCounter(t, ClaimFailures, false);
    QuiescentCounter(t, Created, false);
    QuiescentCounter(t, PlayersMatched, false);
    QuiescentCounter(t, SpreadCount, false);
    QuiescentCounter(t, DeltaCount, false);
    QuiescentCounter(t, Recovered, false);
  }

  /** At quiescence, with no assumption: every worker cycle is a shortage, a failed claim, a
      match, or the attempt of a worker still claiming; and ten players are matched per match. */
  lemma QuiescentAttempts(s: State, acts: seq<Action>, d: Assumptions)
    requires Init(s) && Run(s, acts, d) && Quiescent(Final(s, acts, d))
    ensures AttemptsAgree(Final(s, acts, d))
  {
    InitBooks(s, false);
    RunKeepsBooks(s, acts, d, false);
    BooksAttempts(Final(s, acts, d));
  }

  lemma BooksTotals(t: State)
    requires Books(t, true) && Quiescent(t)
    ensures t.metrics[QueueSize] == |t.primary|
    ensures t.metrics[Enqueued] == t.metrics[Cancelled] + t.metrics[PlayersMatched] + t.metrics[QueueSize]
  {
    hide Inv;
    hide Balanced;
    hide Quiescent;
    QuiescentCensus(t);
    QuiescentCounter(t, QueueSize, true);
    QuiescentCounter(t, Enqueued, true);
    QuiescentCounter(t, Cancelled, true);
    QuiescentCounter(t, PlayersMatched, true);
  }

  /** At quiescence: players enqueued are exactly those cancelled, matched or still queued. */
  lemma QuiescentTotals(s: State, acts: seq<Action>, d: Assumptions)
    requires Init(s) && Run(s, acts, d) && d == BOTH && Quiescent(Final(s, acts, d))
    ensures var t := Final(s, acts, d); var m := t.metrics;
      && m[QueueSize] == |t.primary| && m[Enqueued] == m[Cancelled] + m[PlayersMatched] + m[QueueSize]
      && AttemptsAgree(t)
  {
    hide Books;
    hide AttemptsAgree;
    hide Quiescent;
    QuiescentAttempts(s, acts, d);
    InitBooks(s, true);
    RunKeepsBooks(s, acts, d, true);
    BooksTotals(Final(s, acts, d));
  }

  lemma {:induction false} SumsOrdered(log: seq<MatchRecord>)
    requires forall i :: 0 <= i < |log| ==> TwoTeams(log[i]) && InReach(log[i])
    ensures 0 <= Sum(LogDeltas(log)) <= Sum(LogSpreads(log)) <= MAX_SKILL_RATING * |log|
  {
    hide TwoTeams;
    if log != [] {
      SumsOrdered(log[1..]);
      assert LogDeltas(log)[1..] == LogDeltas(log[1..]) && LogSpreads(log)[1..] == LogSpreads(log[1..]);
    }
  }

  /** The averages the metrics snapshot computes. */
  ghost predicate AveragesOrdered(s: State)
    requires Typed(s)
  {
    var m := s.metrics;
    && m[DeltaSum] >= 0 && m[SpreadSum] >= 0 && m[DeltaCount] >= 0 && m[SpreadCount] >= 0
    && CheckedDiv(m[DeltaSum], m[DeltaCount]) <= CheckedDiv(m[SpreadSum], m[SpreadCount]) <= MAX_SKILL_RATING
  }

  lemma AveragesOf(deltas: nat, spreads: nat, n: nat)
    requires deltas <= spreads <= MAX_SKILL_RATING * n
    ensures CheckedDiv(deltas, n) <= CheckedDiv(spreads, n) <= MAX_SKILL_RATING
  {
    DivMonotone(deltas, spreads, n);
    DivMonotone(spreads, MAX_SKILL_RATING * n, n);
    DivBound(MAX_SKILL_RATING, n);
  }

  lemma BooksAverages(s: State)
    requires Books(s, false) && Shaped(s) && Quiescent(s)
    ensures AveragesOrdered(s)
  {
    hide TwoTeams;
    hide BestSplit;
    hide InReach;
    hide MatchOfPlayers;
    hide Books;
    hide Quiescent;
    assert Typed(s);
    SumsOrdered(s.log);
    hide Shaped;
    AveragesOf(Sum(LogDeltas(s.log)), Sum(LogSpreads(s.log)), |s.log|);
    QuiescentCounter(s, SpreadSum, false);
    QuiescentCounter(s, SpreadCount, false);
    QuiescentCounter(s, DeltaSum, false);
    QuiescentCounter(s, DeltaCount, false);
  }

  /** At quiescence, with no assumption: on average teams differ by no more than the spread of
      their match, which is never more than the rating scale. */
  lemma AveragesAreOrdered(s: State, acts: seq<Action>, d: Assumptions)
    requires Init(s) && Run(s, acts, d) && Quiescent(Final(s, acts, d))
    ensures AveragesOrdered(Final(s, acts, d))
  {
    InitBooks(s, false);
    RunKeepsBooks(s, acts, d, false);
    RunKeepsShape(s, acts, d);
    BooksAverages(Final(s, acts, d));
  }

  // ---- Matches are pushed before they are counted --------------------------------------

  /** A process never owes the match counter a decrease. */
  predicate OwesMatches(pc: Pc) {
    pc.Counting? ==> forall i :: 0 <= i < |pc.pending| && pc.pending[i].counter == Created ==> pc.pending[i].amount >= 0
  }

  lemma {:induction false} OwesNotNegative(pending: seq<Bump>)
    requires OwesMatches(Counting(pending))
    ensures BumpTotal(Created, pending) >= 0
  {
    if pending != [] {
      OwesNotNegative(pending[1..]);
    }
  }

  lemma MatchBumpsOwe(m: MatchRecord)
    ensures OwesMatches(Counting(MatchBumps(m)))
  {
  }

  lemma PushOwes(s: State, p: Pid)
    requires Typed(s) && p < |s.procs| && s.procs[p].pc.Pushing?
    ensures OwesMatches(PushStep(s, p).procs[p].pc)
  {
    hide OwesMatches;
    MatchBumpsOwe(Form(s, s.procs[p].pc.seed, s.procs[p].pc.claimed));
  }

  /** No other step owes matches anything new. */
  lemma OtherStepsOwe(s: State, p: Pid, now: nat)
    requires Typed(s) && p < |s.procs| && OwesMatches(s.procs[p].pc)
    ensures s.procs[p].pc.Enqueuing? ==> OwesMatches(InsertStep(s, p, now).procs[p].pc)
    ensures s.procs[p].pc.RollingBack? ==> OwesMatches(ReleaseStep(s, p).procs[p].pc)
    ensures s.procs[p].pc.Evicting? ==> OwesMatches(UnlinkStep(s, p).procs[p].pc)
    ensures s.procs[p].pc.Reaping? ==> OwesMatches(ReapStep(s, p).procs[p].pc)
    ensures s.procs[p].pc.Counting? ==> OwesMatches(CountStep(s, p).procs[p].pc)
    ensures s.procs[p].pc.Cancelling? ==> OwesMatches(EvictStep(s, p).procs[p].pc)
    ensures s.procs[p].pc.Seeded? ==> OwesMatches(CycleStep(s, p).procs[p].pc)
    ensures s.procs[p].pc.Claiming? ==> OwesMatches(ClaimStep(s, p).procs[p].pc)
    ensures s.procs[p].pc.Marking? ==> OwesMatches(MarkStep(s, p, now).procs[p].pc)
    ensures s.procs[p].pc.Removing? ==> OwesMatches(RemoveStep(s, p).procs[p].pc)
  {
  }

  lemma StepOwes(s: State, p: Pid, now: nat)
    requires Typed(s) && p < |s.procs| && OwesMatches(s.procs[p].pc)
    ensures |ExecStep(s, p, now).procs| == |s.procs| && OwesMatches(ExecStep(s, p, now).procs[p].pc)
  {
    hide InsertStep;
    hide ReleaseStep;
    hide UnlinkStep;
    hide ReapStep;
    hide CountStep;
    hide EvictStep;
    hide CycleStep;
    hide ClaimStep;
    hide MarkStep;
    hide RemoveStep;
    hide PushStep;
    ProgressStep(s, p, now);
    OtherStepsOwe(s, p, now);
    if s.procs[p].pc.Pushing? {
      PushOwes(s, p);
    }
  }

  ghost predicate AllOweMatches(s: State) {
    forall p :: 0 <= p < |s.procs| ==> OwesMatches(s.procs[p].pc)
  }

  lemma OwingKept(s: State, a: Action)
    requires Typed(s) && Enabled(s, a) && AllOweMatches(s)
    ensures AllOweMatches(Exec(s, a))
  {
    ProgressMade(s, a);
    if a.Step? {
      StepOwes(s, a.p, a.now);
    }
  }

  lemma {:induction false} RunKeepsOwing(s: State, acts: seq<Action>, d: Assumptions)
    requires AllOweMatches(s) && Run(s, acts, d)
    ensures AllOweMatches(Final(s, acts, d))
    decreases |acts|
  {
    if acts != [] {
      OwingKept(s, acts[0]);
      RunKeepsOwing(Exec(s, acts[0]), acts[1..], d);
    }
  }

  lemma DebtsNotNegative(s: State)
    requires AllOweMatches(s)
    ensures Sum(Debts(Created, s.procs)) >= 0
  {
    forall p | 0 <= p < |s.procs|
      ensures Debt(Created, s.procs[p].pc) >= 0
    {
      if s.procs[p].pc.Counting? {
        OwesNotNegative(s.procs[p].pc.pending);
      }
    }
    NonNegativeSum(Debts(Created, s.procs));
  }

  /** In every run, with no assumption: the match counter never runs ahead of the matches pushed
      to the history. */
  lemma PushedBeforeCounted(s: State, acts: seq<Action>, d: Assumptions)
    requires Init(s) && Run(s, acts, d)
    ensures Final(s, acts, d).metrics[Created] <= |Final(s, acts, d).log|
  {
    CountersAreConserved(s, acts, d, Created);
    RunKeepsOwing(s, acts, d);
    DebtsNotNegative(Final(s, acts, d));
  }
}
