/** What holds of the protocol in every run, with no assumption at all: typing, no repetition
    among a worker's claims, and well-formed matches in a history that is the newest of all. */
module Shape {
  import opened Basics
  import opened Records
  import opened Relaxation
  import opened Balancer
  import opened Protocol

  ghost predicate NoRepeats(pc: Pc) {
    match pc
    case Claiming(_, cands, next, claimed) =>
      Distinct(claimed) && next <= |cands| && forall r :: r in claimed ==> r in cands[..next]
    case Stamping(_, cands, next, claimed) =>
      Distinct(claimed) && next <= |cands| && forall r :: r in claimed ==> r in cands[..next]
    case RollingBack(claimed, _) => Distinct(claimed)
    case Marking(_, claimed, _) => Distinct(claimed)
    case Removing(_, claimed, _) => Distinct(claimed)
    case Pushing(_, claimed) => Distinct(claimed)
    case _ => true
  }

  /** Some way to pick five of the ten gives these two teams and this delta. */
  ghost predicate SplitBy(m: MatchRecord, c: Choice)
    requires |m.claimed| == |m.ratings| == MATCH_SIZE
  {
    IsSplit(c) && m.teamA == Chosen(m.claimed, c) && m.teamB == Chosen(m.claimed, Complement(c))
    && m.teamDelta == Delta(m.ratings, c)
  }

  /** Ten different records in two teams of five. */
  ghost predicate TwoTeams(m: MatchRecord) {
    && |m.claimed| == |m.ratings| == MATCH_SIZE && Distinct(m.claimed)
    && |m.teamA| == TEAM_SIZE && |m.teamB| == TEAM_SIZE
    && multiset(m.teamA) + multiset(m.teamB) == multiset(m.claimed)
  }

  /** The delta is that of the two teams, and no split of the ten is more even. */
  ghost predicate BestSplit(m: MatchRecord)
    requires |m.claimed| == |m.ratings| == MATCH_SIZE
  {
    (exists c :: SplitBy(m, c)) && (forall c :: IsSplit(c) ==> m.teamDelta <= Delta(m.ratings, c))
  }

  /** The delta is at most the spread, and the spread at most twice the seed's window. */
  predicate InReach(m: MatchRecord)
    requires |m.ratings| == MATCH_SIZE
  {
    && m.teamDelta <= m.skillSpread == Spread(m.ratings) <= MAX_SKILL_RATING
    && m.skillSpread <= 2 * RelaxationWindow(m.seed.elapsedMs, m.seed.config)
  }

  ghost predicate GoodMatch(m: MatchRecord) {
    TwoTeams(m) && BestSplit(m) && InReach(m)
  }

  /** The match speaks of these records. */
  ghost predicate MatchOfPlayers(players: seq<Rec>, m: MatchRecord) {
    ValidRefs(players, m.claimed) && m.ratings == RatingsOf(players, m.claimed)
  }

  ghost predicate LogShape(players: seq<Rec>, log: seq<MatchRecord>) {
    forall i :: 0 <= i < |log| ==> GoodMatch(log[i]) && MatchOfPlayers(players, log[i])
  }

  ghost predicate Shaped(s: State) {
    && Typed(s)
    && (forall p :: 0 <= p < |s.procs| ==> NoRepeats(s.procs[p].pc))
    && LogShape(s.players, s.log) && s.history == Newest(s.log, s.historyLimit)
  }

  // ---- Typing ----------------------------------------------------------------------------

  /** Records may be added and may change state, but keep their identity. */
  ghost predicate Grows(before: seq<Rec>, after: seq<Rec>) {
    |before| <= |after| && forall r :: 0 <= r < |before| ==> SameIdentity(before[r], after[r])
  }

  lemma PcTypedGrows(before: seq<Rec>, after: seq<Rec>, pc: Pc)
    requires Grows(before, after) && PcTyped(before, pc)
    ensures PcTyped(after, pc)
  {
  }

  /** A step changes shared state and then the program counter of one process. */
  lemma TypedUpdate(s: State, s1: State, p: Pid, pc: Pc)
    requires Typed(s) && p < |s.procs| && s1.procs == s.procs && Grows(s.players, s1.players)
    requires |s1.owner| == |s1.players| && forall r :: 0 <= r < |s1.owner| ==> s1.owner[r] < |s.procs|
    requires forall r :: |s.players| <= r < |s1.players| ==> s1.players[r].rating <= MAX_SKILL_RATING
    requires forall id :: id in s1.primary ==> s1.primary[id] < |s1.players|
    requires forall c: Counter :: c in s1.metrics
    requires PcTyped(s1.players, pc)
    ensures Typed(SetPc(s1, p, pc))
  {
    forall q | 0 <= q < |s.procs|
      ensures PcTyped(s1.players, s.procs[q].pc)
    {
      PcTypedGrows(s.players, s1.players, s.procs[q].pc);
    }
  }

  lemma TypedBegin(s: State, p: Pid, op: Operation)
    requires Typed(s) && Enabled(s, Begin(p, op))
    ensures Typed(ExecBegin(s, p, op))
  {
  }

  lemma TypedFound(s: State, p: Pid, cands: seq<Ref>)
    requires Typed(s) && Enabled(s, Found(p, cands))
    ensures Typed(ExecFound(s, p, cands))
  {
  }

  lemma TypedCycle(s: State, p: Pid)
    requires Typed(s) && p < |s.procs| && s.procs[p].pc.Seeded?
    ensures Typed(CycleStep(s, p))
  {
  }

  lemma TypedInsert(s: State, p: Pid, now: nat)
    requires Typed(s) && p < |s.procs| && s.procs[p].pc.Enqueuing?
    ensures Typed(InsertStep(s, p, now))
  {
    var s' := InsertStep(s, p, now);
    var pc := s.procs[p].pc;
    TypedUpdate(s, s.(players := s.players + [NewRec(pc.id, pc.rating, now)], owner := s.owner + [p],
                      primary := s.primary[pc.id := |s.players|]), p, s'.procs[p].pc);
  }

  lemma TypedClaim(s: State, p: Pid)
    requires Typed(s) && p < |s.procs| && s.procs[p].pc.Claiming?
    ensures Typed(ClaimStep(s, p))
  {
    var s' := ClaimStep(s, p);
    var pc := s.procs[p].pc;
    if |pc.claimed| < MATCH_SIZE && pc.next < |pc.cands| && s.players[pc.cands[pc.next]].state == Waiting {
      var r := pc.cands[pc.next];
      TypedUpdate(s, SetOwner(SetPlayer(s, r, CompareExchange(s.players[r], Waiting, Claimed)), r, p), p, s'.procs[p].pc);
    } else {
      TypedUpdate(s, s, p, s'.procs[p].pc);
    }
  }

  lemma TypedStamp(s: State, p: Pid, now: nat)
    requires Typed(s) && p < |s.procs| && s.procs[p].pc.Stamping?
    ensures Typed(StampStep(s, p, now))
  {
    var s' := StampStep(s, p, now);
    var r := s.procs[p].pc.cands[s.procs[p].pc.next];
    TypedUpdate(s, SetPlayer(s, r, StampClaim(s.players[r], p, now)), p, s'.procs[p].pc);
  }

  lemma TypedRelease(s: State, p: Pid)
    requires Typed(s) && p < |s.procs| && s.procs[p].pc.RollingBack?
    ensures Typed(ReleaseStep(s, p))
  {
    var s' := ReleaseStep(s, p);
    var pc := s.procs[p].pc;
    if pc.next < |pc.claimed| {
      var r := pc.claimed[pc.next];
      TypedUpdate(s, SetPlayer(s, r, ReleaseClaim(s.players[r])), p, s'.procs[p].pc);
    }
  }

  lemma TypedMark(s: State, p: Pid, now: nat)
    requires Typed(s) && p < |s.procs| && s.procs[p].pc.Marking?
    ensures Typed(MarkStep(s, p, now))
  {
    var s' := MarkStep(s, p, now);
    var pc := s.procs[p].pc;
    if pc.next < |pc.claimed| {
      var r := pc.claimed[pc.next];
      TypedUpdate(s, SetPlayer(s, r, MarkMatched(s.players[r], now)), p, s'.procs[p].pc);
    }
  }

  lemma TypedRemove(s: State, p: Pid)
    requires Typed(s) && p < |s.procs| && s.procs[p].pc.Removing?
    ensures Typed(RemoveStep(s, p))
  {
  }

  lemma TypedPush(s: State, p: Pid)
    requires Typed(s) && p < |s.procs| && s.procs[p].pc.Pushing?
    ensures Typed(PushStep(s, p))
  {
    var m := Form(s, s.procs[p].pc.seed, s.procs[p].pc.claimed);
    TypedUpdate(s, s.(history := Newest(s.history + [m], s.historyLimit), log := s.log + [m]), p, Counting(MatchBumps(m)));
  }

  lemma TypedCount(s: State, p: Pid)
    requires Typed(s) && p < |s.procs| && s.procs[p].pc.Counting?
    ensures Typed(CountStep(s, p))
  {
  }

  lemma TypedEvict(s: State, p: Pid)
    requires Typed(s) && p < |s.procs| && s.procs[p].pc.Cancelling?
    ensures Typed(EvictStep(s, p))
  {
    var s' := EvictStep(s, p);
    var r := s.procs[p].pc.ref;
    if s.players[r].state == Waiting {
      TypedUpdate(s, SetOwner(SetPlayer(s, r, TryEvict(s.players[r])), r, p).(evictions := s.evictions + 1),
                  p, s'.procs[p].pc);
    }
  }

  lemma TypedUnlink(s: State, p: Pid)
    requires Typed(s) && p < |s.procs| && s.procs[p].pc.Evicting?
    ensures Typed(UnlinkStep(s, p))
  {
  }

  lemma TypedReap(s: State, p: Pid)
    requires Typed(s) && p < |s.procs| && s.procs[p].pc.Reaping?
    ensures Typed(ReapStep(s, p))
  {
    var s' := ReapStep(s, p);
    var pc := s.procs[p].pc;
    if pc.todo != [] && Stale(s.players[pc.todo[0]], pc.nowMs, s.config.staleClaimTimeoutMs) {
      var r := pc.todo[0];
      TypedUpdate(s, SetPlayer(s, r, Reap(s.players[r], pc.nowMs, s.config.staleClaimTimeoutMs)).(resets := s.resets + 1),
                  p, s'.procs[p].pc);
    }
  }

  lemma TypedStep(s: State, p: Pid, now: nat)
    requires Typed(s) && p < |s.procs|
    ensures Typed(ExecStep(s, p, now))
  {
    match s.procs[p].pc
    case Idle =>
    case Scanning(_) =>
    case Enqueuing(_, _) => TypedInsert(s, p, now);
    case Seeded(_) => TypedCycle(s, p);
    case Claiming(_, _, _, _) => TypedClaim(s, p);
    case Stamping(_, _, _, _) => TypedStamp(s, p, now);
    case RollingBack(_, _) => TypedRelease(s, p);
    case Marking(_, _, _) => TypedMark(s, p, now);
    case Removing(_, _, _) => TypedRemove(s, p);
    case Pushing(_, _) => TypedPush(s, p);
    case Counting(_) => TypedCount(s, p);
    case Cancelling(_) => TypedEvict(s, p);
    case Evicting(_) => TypedUnlink(s, p);
    case Reaping(_, _, _) => TypedReap(s, p);
  }

  /** Every step of every run keeps typing. */
  lemma TypedKept(s: State, a: Action)
    requires Typed(s) && Enabled(s, a)
    ensures Typed(Exec(s, a))
  {
    match a
    case Begin(p, op) => TypedBegin(s, p, op);
    case Found(p, cands) => TypedFound(s, p, cands);
    case Step(p, now) => TypedStep(s, p, now);
    case Crash(p) =>
  }

  // ---- Recording a match ----------------------------------------------------------------

  lemma FormsTeams(claimed: seq<Ref>, c: Choice)
    requires |claimed| == MATCH_SIZE && IsSplit(c)
    ensures |Chosen(claimed, c)| == TEAM_SIZE && |Chosen(claimed, Complement(c))| == TEAM_SIZE
    ensures multiset(Chosen(claimed, c)) + multiset(Chosen(claimed, Complement(c))) == multiset(claimed)
  {
    ChosenLength(claimed, c);
    ComplementSize(c);
    ChosenLength(claimed, Complement(c));
    TeamsPartition(claimed, c);
  }

  lemma NoBetterSplit(r: seq<int>, c: Choice)
    requires |r| == MATCH_SIZE && SafeRatings(r) && IsSplit(c)
    ensures MaskDelta(r, Best(r)) <= Delta(r, c)
  {
    BestBeatsEverySplit(r, Best(r), c);
  }

  /** The record formed from ten claimed players is well formed. */
  lemma FormIsGood(s: State, seed: SeedView, claimed: seq<Ref>)
    requires Typed(s) && Distinct(claimed) && |claimed| == MATCH_SIZE && ClaimedTyped(s.players, seed, claimed)
    ensures SafeRatings(RatingsOf(s.players, claimed))
    ensures GoodMatch(Form(s, seed, claimed)) && MatchOfPlayers(s.players, Form(s, seed, claimed))
  {
    var r := RatingsOf(s.players, claimed);
    var best := Best(r);
    var c := Bits(best, MATCH_SIZE);
    BestIsASplit(r, best);
    FormsTeams(claimed, c);
    DeltaAtMostSpread(r, best);
    BoundsAreSound(seed.rating, seed.elapsedMs, seed.config);
    SpreadInside(r, Window(seed).lo, Window(seed).hi);
    SpreadInside(r, 0, MAX_SKILL_RATING);
    forall d | IsSplit(d)
      ensures MaskDelta(r, best) <= Delta(r, d)
    {
      NoBetterSplit(r, d);
    }
    assert SplitBy(Form(s, seed, claimed), c);
  }

  lemma NewestOfNewest<T>(h: seq<T>, x: T, limit: nat)
    ensures Newest(Newest(h, limit) + [x], limit) == Newest(h + [x], limit)
  {
  }

  lemma SplitAt<T>(c: seq<T>, n: nat, x: T)
    requires Distinct(c) && n < |c|
    ensures x in c[n..] <==> x == c[n] || x in c[n + 1..]
    ensures x in c[..n + 1] <==> x in c[..n] || x == c[n]
    ensures c[n] !in c[n + 1..] && c[n] !in c[..n]
  {
    assert c[n..] == [c[n]] + c[n + 1..];
    assert c[..n + 1] == c[..n] + [c[n]];
  }

  // ---- What no step does -----------------------------------------------------------------

  ghost predicate Terminal(r: Rec) {
    r.state == Matched || r.state == Evicted
  }

  /** What no action of process `p` ever does: move another process, change the configuration,
      change who a record is, take it out of a final state, point an id at a record that already
      existed, or touch the recorded matches, unless it pushes one. */
  ghost predicate Progress(s: State, t: State, p: Pid) {
    && p < |s.procs| == |t.procs| && t.procs == s.procs[p := t.procs[p]]
    && t.config == s.config && t.historyLimit == s.historyLimit
    && |s.players| <= |t.players|
    && (forall x :: 0 <= x < |s.players| ==> SameIdentity(s.players[x], t.players[x]))
    && (forall x :: 0 <= x < |s.players| && Terminal(s.players[x]) ==> t.players[x].state == s.players[x].state)
    && (forall id :: id in t.primary ==>
          (id in s.primary && t.primary[id] == s.primary[id]) || t.primary[id] == |s.players|)
    && (!s.procs[p].pc.Pushing? ==> t.log == s.log && t.history == s.history)
  }

  lemma ProgressCycle(s: State, p: Pid)
    requires Typed(s) && p < |s.procs| && s.procs[p].pc.Seeded?
    ensures Progress(s, CycleStep(s, p), p)
  {
  }

  lemma ProgressInsert(s: State, p: Pid, now: nat)
    requires Typed(s) && p < |s.procs| && s.procs[p].pc.Enqueuing?
    ensures Progress(s, InsertStep(s, p, now), p)
  {
  }

  lemma ProgressClaim(s: State, p: Pid)
    requires Typed(s) && p < |s.procs| && s.procs[p].pc.Claiming?
    ensures Progress(s, ClaimStep(s, p), p)
  {
  }

  lemma ProgressStamp(s: State, p: Pid, now: nat)
    requires Typed(s) && p < |s.procs| && s.procs[p].pc.Stamping?
    ensures Progress(s, StampStep(s, p, now), p)
  {
  }

  lemma ProgressRelease(s: State, p: Pid)
    requires Typed(s) && p < |s.procs| && s.procs[p].pc.RollingBack?
    ensures Progress(s, ReleaseStep(s, p), p)
  {
  }

  lemma ProgressMark(s: State, p: Pid, now: nat)
    requires Typed(s) && p < |s.procs| && s.procs[p].pc.Marking?
    ensures Progress(s, MarkStep(s, p, now), p)
  {
  }

  lemma ProgressRemove(s: State, p: Pid)
    requires Typed(s) && p < |s.procs| && s.procs[p].pc.Removing?
    ensures Progress(s, RemoveStep(s, p), p)
  {
  }

  lemma ProgressPush(s: State, p: Pid)
    requires Typed(s) && p < |s.procs| && s.procs[p].pc.Pushing?
    ensures Progress(s, PushStep(s, p), p)
  {
  }

  lemma ProgressCount(s: State, p: Pid)
    requires Typed(s) && p < |s.procs| && s.procs[p].pc.Counting?
    ensures Progress(s, CountStep(s, p), p)
  {
  }

  lemma ProgressEvict(s: State, p: Pid)
    requires Typed(s) && p < |s.procs| && s.procs[p].pc.Cancelling?
    ensures Progress(s, EvictStep(s, p), p)
  {
  }

  lemma ProgressUnlink(s: State, p: Pid)
    requires Typed(s) && p < |s.procs| && s.procs[p].pc.Evicting?
    ensures Progress(s, UnlinkStep(s, p), p)
  {
  }

  lemma ProgressReap(s: State, p: Pid)
    requires Typed(s) && p < |s.procs| && s.procs[p].pc.Reaping?
    ensures Progress(s, ReapStep(s, p), p)
  {
  }

  lemma ProgressStep(s: State, p: Pid, now: nat)
    requires Typed(s) && p < |s.procs|
    ensures Progress(s, ExecStep(s, p, now), p)
  {
    hide Progress;
    match s.procs[p].pc
    case Idle => ProgressStill(s, p);
    case Scanning(_) => ProgressStill(s, p);
    case Enqueuing(_, _) => ProgressInsert(s, p, now);
    case Seeded(_) => ProgressCycle(s, p);
    case Claiming(_, _, _, _) => ProgressClaim(s, p);
    case Stamping(_, _, _, _) => ProgressStamp(s, p, now);
    case RollingBack(_, _) => ProgressRelease(s, p);
    case Marking(_, _, _) => ProgressMark(s, p, now);
    case Removing(_, _, _) => ProgressRemove(s, p);
    case Pushing(_, _) => ProgressPush(s, p);
    case Counting(_) => ProgressCount(s, p);
    case Cancelling(_) => ProgressEvict(s, p);
    case Evicting(_) => ProgressUnlink(s, p);
    case Reaping(_, _, _) => ProgressReap(s, p);
  }

  lemma ProgressStill(s: State, p: Pid)
    requires Typed(s) && p < |s.procs|
    ensures Progress(s, s, p)
  {
  }

  lemma ProgressMade(s: State, a: Action)
    requires Typed(s) && Enabled(s, a)
    ensures Progress(s, Exec(s, a), a.p)
  {
    if a.Step? {
      ProgressStep(s, a.p, a.now);
    }
  }

  // ---- Every step keeps the shape --------------------------------------------------------

  lemma LogShapeGrows(before: seq<Rec>, after: seq<Rec>, log: seq<MatchRecord>)
    requires Grows(before, after) && LogShape(before, log)
    ensures LogShape(after, log)
  {
    forall i | 0 <= i < |log|
      ensures MatchOfPlayers(after, log[i])
    {
      assert MatchOfPlayers(before, log[i]);
    }
  }

  /** A step that pushes no match. */
  lemma ShapedUpdate(s: State, t: State, p: Pid)
    requires Shaped(s) && Typed(t) && p < |s.procs| == |t.procs|
    requires forall q :: 0 <= q < |s.procs| && q != p ==> t.procs[q].pc == s.procs[q].pc
    requires NoRepeats(t.procs[p].pc) && Grows(s.players, t.players)
    requires t.log == s.log && t.history == s.history && t.historyLimit == s.historyLimit
    ensures Shaped(t)
  {
    LogShapeGrows(s.players, t.players, s.log);
  }

  lemma ShapedStamp(s: State, p: Pid, now: nat)
    requires Shaped(s) && p < |s.procs| && s.procs[p].pc.Stamping?
    ensures Shaped(StampStep(s, p, now))
  {
    TypedStamp(s, p, now);
    var pc := s.procs[p].pc;
    SplitAt(pc.cands, pc.next, pc.cands[pc.next]);
    ShapedUpdate(s, StampStep(s, p, now), p);
  }

  lemma NoRepeatsClaim(s: State, p: Pid)
    requires Typed(s) && p < |s.procs| && s.procs[p].pc.Claiming? && NoRepeats(s.procs[p].pc)
    ensures NoRepeats(ClaimStep(s, p).procs[p].pc)
  {
    var pc := s.procs[p].pc;
    if pc.next < |pc.cands| {
      SplitAt(pc.cands, pc.next, pc.cands[pc.next]);
      assert forall r :: r in pc.claimed ==> r in pc.cands[..pc.next + 1];
    }
  }

  lemma ShapedClaim(s: State, p: Pid)
    requires Shaped(s) && p < |s.procs| && s.procs[p].pc.Claiming?
    ensures Shaped(ClaimStep(s, p))
  {
    hide GoodMatch;
    hide ClaimStep;
    TypedClaim(s, p);
    ProgressClaim(s, p);
    NoRepeatsClaim(s, p);
    ShapedUpdate(s, ClaimStep(s, p), p);
  }

  /** Pushing any well-formed match. */
  lemma ShapedRecord(s: State, p: Pid, m: MatchRecord, bumps: seq<Bump>)
    requires Shaped(s) && p < |s.procs| && GoodMatch(m) && MatchOfPlayers(s.players, m)
    ensures Shaped(SetPc(s.(history := Newest(s.history + [m], s.historyLimit), log := s.log + [m]), p, Counting(bumps)))
  {
    var s1 := s.(history := Newest(s.history + [m], s.historyLimit), log := s.log + [m]);
    TypedUpdate(s, s1, p, Counting(bumps));
    NewestOfNewest(s.log, m, s.historyLimit);
  }

  lemma ShapedPush(s: State, p: Pid)
    requires Shaped(s) && p < |s.procs| && s.procs[p].pc.Pushing?
    ensures Shaped(PushStep(s, p))
  {
    hide GoodMatch;
    var pc := s.procs[p].pc;
    FormIsGood(s, pc.seed, pc.claimed);
    var m := Form(s, pc.seed, pc.claimed);
    ShapedRecord(s, p, m, MatchBumps(m));
  }

  /** Rolling back, marking and removing go over the same claims. */
  lemma NoRepeatsInClaims(s: State, p: Pid, now: nat)
    requires Typed(s) && p < |s.procs| && NoRepeats(s.procs[p].pc)
    ensures s.procs[p].pc.RollingBack? ==> NoRepeats(ReleaseStep(s, p).procs[p].pc)
    ensures s.procs[p].pc.Marking? ==> NoRepeats(MarkStep(s, p, now).procs[p].pc)
    ensures s.procs[p].pc.Removing? ==> NoRepeats(RemoveStep(s, p).procs[p].pc)
  {
    hide Distinct;
  }

  lemma NoClaims(s: State, p: Pid, now: nat)
    requires Typed(s) && p < |s.procs|
    ensures s.procs[p].pc.Seeded? ==> CycleStep(s, p).procs[p].pc.Scanning?
    ensures s.procs[p].pc.Enqueuing? ==> InsertStep(s, p, now).procs[p].pc.Counting?
    ensures s.procs[p].pc.Counting? ==> var pc := CountStep(s, p).procs[p].pc; pc.Counting? || pc.Idle?
    ensures s.procs[p].pc.Cancelling? ==> var pc := EvictStep(s, p).procs[p].pc; pc.Evicting? || pc.Idle?
    ensures s.procs[p].pc.Evicting? ==> UnlinkStep(s, p).procs[p].pc.Counting?
    ensures s.procs[p].pc.Reaping? ==> var pc := ReapStep(s, p).procs[p].pc; pc.Reaping? || pc.Counting?
  {
  }

  lemma NoRepeatsElsewhere(s: State, p: Pid, now: nat)
    requires Typed(s) && p < |s.procs| && NoRepeats(s.procs[p].pc)
    requires var pc := s.procs[p].pc; !pc.Claiming? && !pc.Stamping? && !pc.Pushing?
    ensures NoRepeats(ExecStep(s, p, now).procs[p].pc)
  {
    hide Distinct;
    hide CycleStep;
    hide InsertStep;
    hide ReleaseStep;
    hide MarkStep;
    hide RemoveStep;
    hide CountStep;
    hide EvictStep;
    hide UnlinkStep;
    hide ReapStep;
    NoRepeatsInClaims(s, p, now);
    NoClaims(s, p, now);
  }

  /** The other steps claim nobody. */
  lemma ShapedElsewhere(s: State, p: Pid, now: nat)
    requires Shaped(s) && p < |s.procs|
    requires var pc := s.procs[p].pc; !pc.Claiming? && !pc.Stamping? && !pc.Pushing?
    ensures Shaped(ExecStep(s, p, now))
  {
    hide GoodMatch;
    hide ExecStep;
    TypedStep(s, p, now);
    ProgressStep(s, p, now);
    NoRepeatsElsewhere(s, p, now);
    ShapedUpdate(s, ExecStep(s, p, now), p);
  }

  lemma ShapedStep(s: State, p: Pid, now: nat)
    requires Shaped(s) && Enabled(s, Step(p, now))
    ensures Shaped(ExecStep(s, p, now))
  {
    hide GoodMatch;
    var pc := s.procs[p].pc;
    if pc.Claiming? {
      ShapedClaim(s, p);
    } else if pc.Stamping? {
      ShapedStamp(s, p, now);
    } else if pc.Pushing? {
      ShapedPush(s, p);
    } else {
      ShapedElsewhere(s, p, now);
    }
  }

  /** The shape is an invariant of every run. */
  lemma ShapedKept(s: State, a: Action)
    requires Shaped(s) && Enabled(s, a)
    ensures Shaped(Exec(s, a))
  {
    hide GoodMatch;
    TypedKept(s, a);
    match a
    case Step(p, now) => ShapedStep(s, p, now);
    case _ => ShapedUpdate(s, Exec(s, a), a.p);
  }

  lemma {:induction false} RunKeepsShape(s: State, acts: seq<Action>, d: Assumptions)
    requires Shaped(s) && Run(s, acts, d)
    ensures Shaped(Final(s, acts, d))
    decreases |acts|
  {
    if acts != [] {
      ShapedKept(s, acts[0]);
      RunKeepsShape(Exec(s, acts[0]), acts[1..], d);
    }
  }
}
