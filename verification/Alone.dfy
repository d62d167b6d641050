/** What each operation of the protocol does when, from some moment on, only its own process steps:
    the link to the sequential layer. Whatever happened before may have been contended. */
module Alone {
  import opened Basics
  import opened Records
  import opened Protocol
  import opened Shape
  import opened Recovery
  import opened Conservation

  // ---- An attempt with its scan result ---------------------------------------------------

  /** The candidates that are waiting, in order. */
  ghost function WaitingRefs(players: seq<Rec>, cands: seq<Ref>): (waiting: seq<Ref>)
    requires ValidRefs(players, cands)
    ensures ValidRefs(players, waiting)
  {
    if cands == [] then []
    else
      var n := |cands| - 1;
      WaitingRefs(players, cands[..n]) + if players[cands[n]].state == Waiting then [cands[n]] else []
  }

  lemma {:induction false} WaitingAmong(players: seq<Rec>, cands: seq<Ref>)
    requires ValidRefs(players, cands)
    ensures |WaitingRefs(players, cands)| <= |cands|
    ensures forall x :: x in WaitingRefs(players, cands) <==> x in cands && players[x].state == Waiting
  {
    if cands != [] {
      var n := |cands| - 1;
      WaitingAmong(players, cands[..n]);
      assert cands == cands[..n] + [cands[n]];
    }
  }

  lemma {:induction false} WaitingPrefix(players: seq<Rec>, cands: seq<Ref>, i: nat)
    requires ValidRefs(players, cands) && i <= |cands|
    ensures WaitingRefs(players, cands[..i]) <= WaitingRefs(players, cands)
    decreases |cands|
  {
    if i == |cands| {
      assert cands[..i] == cands;
    } else {
      var n := |cands| - 1;
      WaitingPrefix(players, cands[..n], i);
      assert cands[..n][..i] == cands[..i];
    }
  }

  lemma WaitingNext(players: seq<Rec>, cands: seq<Ref>, i: nat)
    requires ValidRefs(players, cands) && i < |cands|
    ensures WaitingRefs(players, cands[..i + 1])
            == WaitingRefs(players, cands[..i]) + if players[cands[i]].state == Waiting then [cands[i]] else []
  {
    assert cands[..i + 1][..i] == cands[..i];
  }

  /** Claimed by `p` since, and otherwise as it was. */
  predicate NowClaimed(r: Rec, was: Rec, p: Pid) {
    r == was.(state := Claimed, claimedBy := p, claimTs := r.claimTs)
  }

  /** Matched by `p` since, and otherwise as it was. */
  predicate NowMatched(r: Rec, was: Rec, p: Pid) {
    r == was.(state := Matched, claimedBy := p, claimTs := r.claimTs, matchedAt := r.matchedAt) && r.matchedAt.Some?
  }

  /** Of the players in `mine`, the first `next` are matched or as they were, the others claimed;
      everybody else is as in `s`. */
  ghost predicate HalfWay(s: State, t: State, p: Pid, mine: seq<Ref>, next: nat, matched: bool) {
    && |t.players| == |s.players| && ValidRefs(s.players, mine) && next <= |mine|
    && (forall k :: 0 <= k < next ==>
          if matched then NowMatched(t.players[mine[k]], s.players[mine[k]], p) else t.players[mine[k]] == s.players[mine[k]])
    && (forall k :: next <= k < |mine| ==> NowClaimed(t.players[mine[k]], s.players[mine[k]], p))
    && (forall x :: 0 <= x < |s.players| && x !in mine ==> t.players[x] == s.players[x])
  }

  /** Nothing but players has changed. */
  ghost predicate NothingShared(s: State, t: State) {
    t.primary == s.primary && t.log == s.log && t.history == s.history && t.metrics == s.metrics
    && t.historyLimit == s.historyLimit && t.config == s.config
  }

  ghost function RefIds(players: seq<Rec>, refs: seq<Ref>): set<Uuid>
    requires ValidRefs(players, refs)
  {
    set x | x in refs :: players[x].id
  }

  ghost function Taken(s: State, cands: seq<Ref>): seq<Ref>
    requires ValidRefs(s.players, cands) && |WaitingRefs(s.players, cands)| >= 10
  {
    WaitingRefs(s.players, cands)[..10]
  }

  /** Fewer than ten candidates were waiting: every player is as it was, and so are the pool and
      the matches; one claim failure is counted, up to the updates still pending. */
  ghost predicate GaveUp(s: State, t: State, cands: seq<Ref>, pending: seq<Bump>)
    requires Typed(s) && Typed(t) && ValidRefs(s.players, cands)
  {
    && |WaitingRefs(s.players, cands)| < 10
    && t.players == s.players && t.primary == s.primary && t.log == s.log && t.history == s.history
    && forall c: Counter ::
         t.metrics[c] + BumpTotal(c, pending) == s.metrics[c] + if c == ClaimFailures then 1 else 0
  }

  /** At least ten were waiting: the first ten of those are matched, and everybody else is as
      before; their ids have left the pool; one match of exactly these ten is recorded; and it is
      counted, up to the updates still pending. */
  ghost predicate Succeeded(s: State, t: State, p: Pid, seed: SeedView, cands: seq<Ref>, pending: seq<Bump>)
    requires Typed(s) && Typed(t) && ValidRefs(s.players, cands)
  {
    && |WaitingRefs(s.players, cands)| >= 10
    && HalfWay(s, t, p, Taken(s, cands), 10, true)
    && t.primary == s.primary - RefIds(s.players, Taken(s, cands))
    && |t.log| == |s.log| + 1 && t.log[..|s.log|] == s.log
    && var m := t.log[|s.log|];
       && m.claimed == Taken(s, cands) && m.seed == seed && GoodMatch(m) && MatchOfPlayers(s.players, m)
       && t.history == Newest(s.history + [m], s.historyLimit)
       && forall c: Counter :: t.metrics[c] + BumpTotal(c, pending) == s.metrics[c] + GainOf(c, m)
  }

  /** What one match adds to each counter. */
  function GainOf(c: Counter, m: MatchRecord): int {
    match c
    case Created => 1
    case PlayersMatched => 10
    case QueueSize => -10
    case SpreadSum => m.skillSpread
    case SpreadCount => 1
    case DeltaSum => m.teamDelta
    case DeltaCount => 1
    case _ => 0
  }

  /** About to try candidate `i`. */
  ghost predicate Trying(s: State, t: State, p: Pid, cands: seq<Ref>, i: nat, claimed: seq<Ref>)
    requires ValidRefs(s.players, cands)
  {
    && i <= |cands| && |claimed| <= 10 && NothingShared(s, t)
    && claimed == WaitingRefs(s.players, cands[..i]) && HalfWay(s, t, p, claimed, 0, true)
  }

  /** Candidate `i` is claimed and not yet stamped. */
  ghost predicate Won(s: State, t: State, p: Pid, cands: seq<Ref>, i: nat, claimed: seq<Ref>)
    requires ValidRefs(s.players, cands)
  {
    && i < |cands| && |claimed| < 10 && NothingShared(s, t) && s.players[cands[i]].state == Waiting
    && claimed == WaitingRefs(s.players, cands[..i]) && BeforeStamp(s, t, p, claimed, cands[i])
  }

  /** Too few are claimed, and `j` of them are given back. */
  ghost predicate GivingBack(s: State, t: State, p: Pid, cands: seq<Ref>, claimed: seq<Ref>, j: nat)
    requires ValidRefs(s.players, cands)
  {
    && |WaitingRefs(s.players, cands)| < 10 && claimed == WaitingRefs(s.players, cands)
    && HalfWay(s, t, p, claimed, j, false) && NothingShared(s, t)
  }

  /** Ten are claimed, `j` of them are matched and `k` are removed. */
  ghost predicate Keeping(s: State, t: State, p: Pid, cands: seq<Ref>, claimed: seq<Ref>, j: nat, k: nat)
    requires ValidRefs(s.players, cands)
  {
    && |WaitingRefs(s.players, cands)| >= 10 && claimed == Taken(s, cands) && k <= 10
    && HalfWay(s, t, p, claimed, j, true) && t.primary == s.primary - RefIds(s.players, claimed[..k])
    && NothingShared(s, t.(primary := s.primary))
  }

  /** Where an attempt may be that started to claim in state `s`, nobody else having stepped. */
  ghost predicate AttemptAt(s: State, t: State, p: Pid, seed: SeedView, cands: seq<Ref>)
    requires Typed(s) && Typed(t) && ValidRefs(s.players, cands)
  {
    && p < |t.procs| && !t.procs[p].crashed
    && match t.procs[p].pc
       case Claiming(v, c, i, claimed) => v == seed && c == cands && Trying(s, t, p, cands, i, claimed)
       case Stamping(v, c, i, claimed) => v == seed && c == cands && Won(s, t, p, cands, i, claimed)
       case RollingBack(claimed, j) => GivingBack(s, t, p, cands, claimed, j)
       case Marking(v, claimed, j) => v == seed && Keeping(s, t, p, cands, claimed, j, 0)
       case Removing(v, claimed, k) => v == seed && Keeping(s, t, p, cands, claimed, 10, k)
       case Pushing(v, claimed) => v == seed && Keeping(s, t, p, cands, claimed, 10, 10)
       case Counting(pending) => GaveUp(s, t, cands, pending) || Succeeded(s, t, p, seed, cands, pending)
       case Idle => GaveUp(s, t, cands, []) || Succeeded(s, t, p, seed, cands, [])
       case _ => false
  }

  /** A candidate is claimed but not yet stamped. */
  ghost predicate BeforeStamp(s: State, t: State, p: Pid, claimed: seq<Ref>, r: Ref) {
    && |t.players| == |s.players| && ValidRefs(s.players, claimed) && r < |s.players|
    && (forall k :: 0 <= k < |claimed| ==> NowClaimed(t.players[claimed[k]], s.players[claimed[k]], p))
    && t.players[r] == s.players[r].(state := Claimed)
    && (forall x :: 0 <= x < |s.players| && x !in claimed && x != r ==> t.players[x] == s.players[x])
  }

  /** Waiting players carry no claim, and the candidates differ. */
  ghost predicate Ready(s: State, cands: seq<Ref>) {
    && Distinct(cands) && ValidRefs(s.players, cands)
    && forall x :: 0 <= x < |s.players| && s.players[x].state == Waiting ==> Unclaimed(s.players[x])
  }

  lemma TriedAll(s: State, t: State, p: Pid, cands: seq<Ref>, i: nat, claimed: seq<Ref>)
    requires ValidRefs(s.players, cands) && Trying(s, t, p, cands, i, claimed)
    ensures |claimed| == 10 ==> Keeping(s, t, p, cands, claimed, 0, 0)
    ensures |claimed| < 10 && i == |cands| ==> GivingBack(s, t, p, cands, claimed, 0)
  {
    WaitingPrefix(s.players, cands, i);
    assert cands[..|cands|] == cands;
    assert RefIds(s.players, claimed[..0]) == {};
    assert s.primary - {} == s.primary;
  }

  /** Trying one candidate: a lost race moves on to the next. */
  lemma TryOne(s: State, t: State, u: State, p: Pid, cands: seq<Ref>, i: nat, claimed: seq<Ref>)
    requires Ready(s, cands) && Trying(s, t, p, cands, i, claimed) && |claimed| < 10 && i < |cands|
    requires NothingShared(t, u) && |u.players| == |t.players|
    ensures t.players[cands[i]] == s.players[cands[i]]
    ensures s.players[cands[i]].state != Waiting && u.players == t.players ==> Trying(s, u, p, cands, i + 1, claimed)
    ensures s.players[cands[i]].state == Waiting && u.players == t.players[cands[i] := t.players[cands[i]].(state := Claimed)] ==>
              Won(s, u, p, cands, i, claimed)
  {
    WaitingNext(s.players, cands, i);
    WaitingAmong(s.players, cands[..i]);
    NotEarlier(cands, i);
  }

  lemma ClaimAlone(s: State, t: State, p: Pid, seed: SeedView, cands: seq<Ref>)
    requires Typed(s) && Typed(t) && Ready(s, cands) && AttemptAt(s, t, p, seed, cands) && t.procs[p].pc.Claiming?
    ensures Typed(ClaimStep(t, p)) && AttemptAt(s, ClaimStep(t, p), p, seed, cands)
  {
    TypedClaim(t, p);
    var pc := t.procs[p].pc;
    var u := ClaimStep(t, p);
    TriedAll(s, t, p, cands, pc.next, pc.claimed);
    if |pc.claimed| < 10 && pc.next < |cands| {
      TryOne(s, t, u, p, cands, pc.next, pc.claimed);
    }
    hide Trying;
    hide Won;
    hide WaitingRefs;
    hide Typed;
    if |pc.claimed| == 10 {
      assert Keeping(s, u, p, cands, pc.claimed, 0, 0);
    } else if pc.next == |cands| {
      assert GivingBack(s, u, p, cands, pc.claimed, 0);
    }
  }

  lemma NotEarlier(cands: seq<Ref>, i: nat)
    requires Distinct(cands) && i < |cands|
    ensures cands[i] !in cands[..i]
  {
  }

  lemma StampOne(s: State, t: State, u: State, p: Pid, cands: seq<Ref>, i: nat, claimed: seq<Ref>, now: nat)
    requires Ready(s, cands) && Won(s, t, p, cands, i, claimed) && NothingShared(t, u)
    requires u.players == t.players[cands[i] := StampClaim(t.players[cands[i]], p, now)]
    ensures Trying(s, u, p, cands, i + 1, claimed + [cands[i]])
  {
    WaitingNext(s.players, cands, i);
    WaitingAmong(s.players, cands[..i]);
    NotEarlier(cands, i);
  }

  lemma StampAlone(s: State, t: State, p: Pid, now: nat, seed: SeedView, cands: seq<Ref>)
    requires Typed(s) && Typed(t) && Ready(s, cands) && AttemptAt(s, t, p, seed, cands) && t.procs[p].pc.Stamping?
    ensures Typed(StampStep(t, p, now)) && AttemptAt(s, StampStep(t, p, now), p, seed, cands)
  {
    hide Trying;
    TypedStamp(t, p, now);
    var pc := t.procs[p].pc;
    StampOne(s, t, StampStep(t, p, now), p, cands, pc.next, pc.claimed, now);
  }

  lemma {:induction false} WaitingDistinct(players: seq<Rec>, cands: seq<Ref>)
    requires ValidRefs(players, cands) && Distinct(cands)
    ensures Distinct(WaitingRefs(players, cands))
  {
    if cands != [] {
      var n := |cands| - 1;
      WaitingDistinct(players, cands[..n]);
      WaitingAmong(players, cands[..n]);
    }
  }

  /** One more of the players in hand is dealt with. */
  lemma OneFurther(s: State, t: State, u: State, p: Pid, mine: seq<Ref>, next: nat, matched: bool)
    requires HalfWay(s, t, p, mine, next, matched) && Distinct(mine) && next < |mine|
    requires |u.players| == |t.players|
    requires forall x :: 0 <= x < |t.players| && x != mine[next] ==> u.players[x] == t.players[x]
    requires if matched then NowMatched(u.players[mine[next]], s.players[mine[next]], p)
             else u.players[mine[next]] == s.players[mine[next]]
    ensures HalfWay(s, u, p, mine, next + 1, matched)
  {
  }

  lemma ReleaseAlone(s: State, t: State, p: Pid, seed: SeedView, cands: seq<Ref>)
    requires Typed(s) && Typed(t) && Ready(s, cands) && AttemptAt(s, t, p, seed, cands) && t.procs[p].pc.RollingBack?
    ensures Typed(ReleaseStep(t, p)) && AttemptAt(s, ReleaseStep(t, p), p, seed, cands)
  {
    TypedRelease(t, p);
    var pc := t.procs[p].pc;
    var u := ReleaseStep(t, p);
    WaitingDistinct(s.players, cands);
    WaitingAmong(s.players, cands);
    if pc.next < |pc.claimed| {
      OneFurther(s, t, u, p, pc.claimed, pc.next, false);
    } else {
      assert u.players == s.players;
      forall c: Counter
        ensures BumpTotal(c, [Bump(ClaimFailures, 1)]) == if c == ClaimFailures then 1 else 0
      {
        BumpOne(c, ClaimFailures, 1);
      }
    }
  }

  lemma MarkAlone(s: State, t: State, p: Pid, now: nat, seed: SeedView, cands: seq<Ref>)
    requires Typed(s) && Typed(t) && Ready(s, cands) && AttemptAt(s, t, p, seed, cands) && t.procs[p].pc.Marking?
    ensures Typed(MarkStep(t, p, now)) && AttemptAt(s, MarkStep(t, p, now), p, seed, cands)
  {
    TypedMark(t, p, now);
    var pc := t.procs[p].pc;
    WaitingDistinct(s.players, cands);
    if pc.next < |pc.claimed| {
      OneFurther(s, t, MarkStep(t, p, now), p, pc.claimed, pc.next, true);
    }
  }

  lemma RemoveOneMore(s: State, t: State, u: State, p: Pid, cands: seq<Ref>, claimed: seq<Ref>, k: nat)
    requires ValidRefs(s.players, cands) && Keeping(s, t, p, cands, claimed, 10, k) && k < 10
    requires u.players == t.players && u.primary == t.primary - {s.players[claimed[k]].id}
    requires NothingShared(t, u.(primary := t.primary))
    ensures Keeping(s, u, p, cands, claimed, 10, k + 1)
  {
    assert claimed[..k + 1] == claimed[..k] + [claimed[k]];
    assert RefIds(s.players, claimed[..k + 1]) == RefIds(s.players, claimed[..k]) + {s.players[claimed[k]].id};
  }

  lemma RemoveAlone(s: State, t: State, p: Pid, seed: SeedView, cands: seq<Ref>)
    requires Typed(s) && Typed(t) && Ready(s, cands) && AttemptAt(s, t, p, seed, cands) && t.procs[p].pc.Removing?
    ensures Typed(RemoveStep(t, p)) && AttemptAt(s, RemoveStep(t, p), p, seed, cands)
  {
    hide WaitingRefs;
    TypedRemove(t, p);
    var pc := t.procs[p].pc;
    if pc.next < |pc.claimed| {
      assert t.players[pc.claimed[pc.next]].id == s.players[pc.claimed[pc.next]].id;
      RemoveOneMore(s, t, RemoveStep(t, p), p, cands, pc.claimed, pc.next);
    }
  }

  lemma SameRatings(s: State, t: State, p: Pid, mine: seq<Ref>)
    requires HalfWay(s, t, p, mine, 10, true) && |mine| == 10
    ensures ValidRefs(t.players, mine) && RatingsOf(t.players, mine) == RatingsOf(s.players, mine)
  {
  }

  lemma MatchRecorded(s: State, t: State, u: State, p: Pid, seed: SeedView, cands: seq<Ref>, m: MatchRecord)
    requires Typed(s) && Typed(u) && ValidRefs(s.players, cands)
    requires Keeping(s, t, p, cands, m.claimed, 10, 10) && m.seed == seed && GoodMatch(m) && MatchOfPlayers(s.players, m)
    requires u.players == t.players && u.primary == t.primary && u.metrics == t.metrics
    requires u.log == t.log + [m] && u.history == Newest(t.history + [m], t.historyLimit)
    ensures Succeeded(s, u, p, seed, cands, MatchBumps(m))
  {
    hide GoodMatch;
    hide MatchBumps;
    hide WaitingRefs;
    var ten := Taken(s, cands);
    assert ten[..10] == ten;
    forall c: Counter
      ensures BumpTotal(c, MatchBumps(m)) == GainOf(c, m)
    {
      BumpsOfMatch(c, m);
    }
  }

  /** The match that a push records, and what it leaves alone. */
  lemma PushRecords(t: State, p: Pid) returns (m: MatchRecord)
    requires Typed(t) && p < |t.procs| && t.procs[p].pc.Pushing? && Distinct(t.procs[p].pc.claimed)
    ensures var u := PushStep(t, p);
      && Typed(u) && |u.procs| == |t.procs| && u.procs[p] == t.procs[p].(pc := Counting(MatchBumps(m)))
      && u.players == t.players && u.primary == t.primary && u.metrics == t.metrics
      && u.log == t.log + [m] && u.history == Newest(t.history + [m], t.historyLimit)
    ensures m.claimed == t.procs[p].pc.claimed && m.seed == t.procs[p].pc.seed
    ensures GoodMatch(m) && MatchOfPlayers(t.players, m)
  {
    TypedPush(t, p);
    var pc := t.procs[p].pc;
    FormIsGood(t, pc.seed, pc.claimed);
    m := Form(t, pc.seed, pc.claimed);
  }

  lemma SameMatch(s: State, t: State, p: Pid, m: MatchRecord)
    requires HalfWay(s, t, p, m.claimed, 10, true) && |m.claimed| == 10 && MatchOfPlayers(t.players, m)
    ensures MatchOfPlayers(s.players, m)
  {
    SameRatings(s, t, p, m.claimed);
  }

  lemma AtPush(s: State, t: State, p: Pid, seed: SeedView, cands: seq<Ref>)
    requires Typed(s) && Typed(t) && Ready(s, cands) && AttemptAt(s, t, p, seed, cands) && t.procs[p].pc.Pushing?
    ensures var pc := t.procs[p].pc;
      && pc.seed == seed && !t.procs[p].crashed && Distinct(pc.claimed) && |pc.claimed| == 10
      && Keeping(s, t, p, cands, pc.claimed, 10, 10) && HalfWay(s, t, p, pc.claimed, 10, true)
  {
    WaitingDistinct(s.players, cands);
  }

  lemma AtCount(s: State, u: State, p: Pid, seed: SeedView, cands: seq<Ref>, pending: seq<Bump>)
    requires Typed(s) && Typed(u) && ValidRefs(s.players, cands) && p < |u.procs|
    requires u.procs[p] == Process(Counting(pending), false) && Succeeded(s, u, p, seed, cands, pending)
    ensures AttemptAt(s, u, p, seed, cands)
  {
  }

  lemma PushAlone(s: State, t: State, p: Pid, seed: SeedView, cands: seq<Ref>)
    requires Typed(s) && Typed(t) && Ready(s, cands) && AttemptAt(s, t, p, seed, cands) && t.procs[p].pc.Pushing?
    ensures Typed(PushStep(t, p)) && AttemptAt(s, PushStep(t, p), p, seed, cands)
  {
    AtPush(s, t, p, seed, cands);
    var m := PushRecords(t, p);
    hide AttemptAt;
    hide PushStep;
    hide GoodMatch;
    hide MatchOfPlayers;
    hide MatchBumps;
    hide Distinct;
    hide Typed;
    hide Keeping;
    hide HalfWay;
    hide Succeeded;
    SameMatch(s, t, p, m);
    MatchRecorded(s, t, PushStep(t, p), p, seed, cands, m);
    AtCount(s, PushStep(t, p), p, seed, cands, MatchBumps(m));
  }

  lemma BumpsLeft(before: map<Counter, int>, pending: seq<Bump>, c: Counter)
    requires pending != [] && pending[0].counter in before && c in before
    ensures before[pending[0].counter := before[pending[0].counter] + pending[0].amount][c] + BumpTotal(c, pending[1..])
            == before[c] + BumpTotal(c, pending)
  {
  }

  /** Performing one pending update. */
  lemma OneCounted(s: State, t: State, u: State, p: Pid, seed: SeedView, cands: seq<Ref>, pending: seq<Bump>)
    requires Typed(s) && Typed(t) && Typed(u) && ValidRefs(s.players, cands) && pending != []
    requires u.players == t.players && u.primary == t.primary && u.log == t.log && u.history == t.history
    requires u.metrics == t.metrics[pending[0].counter := t.metrics[pending[0].counter] + pending[0].amount]
    ensures GaveUp(s, t, cands, pending) ==> GaveUp(s, u, cands, pending[1..])
    ensures Succeeded(s, t, p, seed, cands, pending) ==> Succeeded(s, u, p, seed, cands, pending[1..])
  {
    hide GoodMatch;
    hide WaitingRefs;
    forall c: Counter
      ensures u.metrics[c] + BumpTotal(c, pending[1..]) == t.metrics[c] + BumpTotal(c, pending)
    {
      BumpsLeft(t.metrics, pending, c);
    }
    hide BumpTotal;
    hide Typed;
  }

  /** Only program counters differ. */
  lemma SameShared(s: State, t: State, u: State, p: Pid, seed: SeedView, cands: seq<Ref>, pending: seq<Bump>)
    requires Typed(s) && Typed(t) && Typed(u) && ValidRefs(s.players, cands)
    requires u.players == t.players && u.primary == t.primary && u.log == t.log && u.history == t.history
    requires u.metrics == t.metrics
    ensures GaveUp(s, t, cands, pending) ==> GaveUp(s, u, cands, pending)
    ensures Succeeded(s, t, p, seed, cands, pending) ==> Succeeded(s, u, p, seed, cands, pending)
  {
    hide GoodMatch;
    hide WaitingRefs;
    hide BumpTotal;
    hide Typed;
  }

  lemma CountAlone(s: State, t: State, p: Pid, seed: SeedView, cands: seq<Ref>)
    requires Typed(s) && Typed(t) && Ready(s, cands) && AttemptAt(s, t, p, seed, cands) && t.procs[p].pc.Counting?
    ensures Typed(CountStep(t, p)) && AttemptAt(s, CountStep(t, p), p, seed, cands)
  {
    hide GaveUp;
    hide Succeeded;
    hide Typed;
    TypedCount(t, p);
    var pending := t.procs[p].pc.pending;
    if pending != [] {
      OneCounted(s, t, CountStep(t, p), p, seed, cands, pending);
    } else {
      SameShared(s, t, CountStep(t, p), p, seed, cands, []);
    }
  }

  lemma AttemptStep(s: State, t: State, p: Pid, now: nat, seed: SeedView, cands: seq<Ref>)
    requires Typed(s) && Typed(t) && Ready(s, cands) && AttemptAt(s, t, p, seed, cands) && Enabled(t, Step(p, now))
    ensures Typed(ExecStep(t, p, now)) && AttemptAt(s, ExecStep(t, p, now), p, seed, cands)
  {
    TypedStep(t, p, now);
    match t.procs[p].pc
    case Claiming(_, _, _, _) => ClaimAlone(s, t, p, seed, cands);
    case Stamping(_, _, _, _) => StampAlone(s, t, p, now, seed, cands);
    case RollingBack(_, _) => ReleaseAlone(s, t, p, seed, cands);
    case Marking(_, _, _) => MarkAlone(s, t, p, now, seed, cands);
    case Removing(_, _, _) => RemoveAlone(s, t, p, seed, cands);
    case Pushing(_, _) => PushAlone(s, t, p, seed, cands);
    case Counting(_) => CountAlone(s, t, p, seed, cands);
    case _ =>
  }

  /** Only `p` acts, and it steps. */
  predicate OwnSteps(acts: seq<Action>, p: Pid) {
    forall i :: 0 <= i < |acts| ==> acts[i].Step? && acts[i].p == p
  }

  /** The first step of such a run. */
  lemma OwnStep(t: State, acts: seq<Action>, d: Assumptions, p: Pid)
    requires Run(t, acts, d) && OwnSteps(acts, p) && acts != []
    ensures Enabled(t, Step(p, acts[0].now)) && acts[0] == Step(p, acts[0].now)
    ensures Run(ExecStep(t, p, acts[0].now), acts[1..], d) && OwnSteps(acts[1..], p)
    ensures Final(t, acts, d) == Final(ExecStep(t, p, acts[0].now), acts[1..], d)
  {
  }

  lemma {:induction false} AttemptRun(s: State, t: State, acts: seq<Action>, d: Assumptions, p: Pid,
                                      seed: SeedView, cands: seq<Ref>)
    requires Typed(s) && Ready(s, cands) && Run(t, acts, d) && OwnSteps(acts, p) && AttemptAt(s, t, p, seed, cands)
    ensures AttemptAt(s, Final(t, acts, d), p, seed, cands)
    decreases |acts|
  {
    if acts != [] {
      OwnStep(t, acts, d, p);
      hide AttemptAt;
      hide Ready;
      hide Typed;
      hide Run;
      hide Final;
      hide ExecStep;
      hide Enabled;
      hide OwnSteps;
      AttemptStep(s, t, p, acts[0].now, seed, cands);
      AttemptRun(s, ExecStep(t, p, acts[0].now), acts[1..], d, p, seed, cands);
    }
  }

  /** What an attempt that started to claim in state `s` has done by the end. */
  ghost predicate AttemptOutcome(s: State, t: State, p: Pid, seed: SeedView, cands: seq<Ref>)
    requires Typed(s) && Typed(t) && ValidRefs(s.players, cands)
  {
    && |t.players| == |s.players|
    && var waiting := WaitingRefs(s.players, cands);
       if |waiting| >= 10 then
         && |t.log| == |s.log| + 1 && t.log[..|s.log|] == s.log
         && var m := t.log[|s.log|];
            && m.claimed == waiting[..10] && m.seed == seed && GoodMatch(m) && MatchOfPlayers(s.players, m)
            && t.history == Newest(s.history + [m], s.historyLimit)
            && t.primary == s.primary - RefIds(s.players, waiting[..10])
            && (forall x :: 0 <= x < |s.players| ==>
                  if x in waiting[..10] then NowMatched(t.players[x], s.players[x], p) else t.players[x] == s.players[x])
            && (forall c: Counter :: t.metrics[c] == s.metrics[c] + GainOf(c, m))
       else
         && t.players == s.players && t.primary == s.primary && t.log == s.log && t.history == s.history
         && (forall c: Counter :: t.metrics[c] == s.metrics[c] + if c == ClaimFailures then 1 else 0)
  }

  lemma AttemptBegins(s: State, p: Pid)
    requires Typed(s) && p < |s.procs| && !s.procs[p].crashed && s.procs[p].pc.Claiming?
    requires s.procs[p].pc.next == 0 && s.procs[p].pc.claimed == []
    ensures ValidRefs(s.players, s.procs[p].pc.cands) && Distinct(s.procs[p].pc.cands)
    ensures AttemptAt(s, s, p, s.procs[p].pc.seed, s.procs[p].pc.cands)
  {
    assert PcTyped(s.players, s.procs[p].pc);
  }

  lemma ReachedReady(s0: State, before: seq<Action>, d: Assumptions, cands: seq<Ref>)
    requires Init(s0) && Run(s0, before, d) && d.crashedOwners
    requires Distinct(cands) && ValidRefs(Final(s0, before, d).players, cands)
    ensures Ready(Final(s0, before, d), cands)
  {
    forall x | 0 <= x < |Final(s0, before, d).players|
      ensures Final(s0, before, d).players[x].state == Waiting ==> Unclaimed(Final(s0, before, d).players[x])
    {
      ClaimFieldsAreAccurate(s0, before, d, x);
    }
  }

  /** From any reachable state in which a live worker has its scan result, and however contended
      the way there was: if then only this worker steps, until it is idle, it records a match if
      and only if at least ten of its candidates are waiting, whatever became of the others. The
      match is of the first ten waiting candidates, in the order of the scan; exactly those end
      matched, in its name, and leave the pool; every counter gains what one match adds. Otherwise
      every player, the pool and the matches are as they were, and one claim failure is counted. */
  lemma AttemptAlone(s0: State, before: seq<Action>, d0: Assumptions, p: Pid, acts: seq<Action>, d: Assumptions)
    requires Init(s0) && Run(s0, before, d0) && d0.crashedOwners
    requires var s := Final(s0, before, d0);
      && p < |s.procs| && !s.procs[p].crashed && s.procs[p].pc.Claiming?
      && s.procs[p].pc.next == 0 && s.procs[p].pc.claimed == []
      && Run(s, acts, d) && OwnSteps(acts, p) && p < |Final(s, acts, d).procs| && Final(s, acts, d).procs[p].pc.Idle?
    ensures var s := Final(s0, before, d0);
      var pc := s.procs[p].pc;
      ValidRefs(s.players, pc.cands) && AttemptOutcome(s, Final(s, acts, d), p, pc.seed, pc.cands)
  {
    var s := Final(s0, before, d0);
    var seed, cands := s.procs[p].pc.seed, s.procs[p].pc.cands;
    AttemptBegins(s, p);
    ReachedReady(s0, before, d0, cands);
    AttemptRun(s, s, acts, d, p, seed, cands);
    Concluded(s, Final(s, acts, d), p, seed, cands);
  }

  lemma Concluded(s: State, t: State, p: Pid, seed: SeedView, cands: seq<Ref>)
    requires Typed(s) && Typed(t) && ValidRefs(s.players, cands) && AttemptAt(s, t, p, seed, cands) && t.procs[p].pc.Idle?
    ensures AttemptOutcome(s, t, p, seed, cands)
  {
    hide GoodMatch;
    hide WaitingRefs;
  }

  /** How many steps an attempt may still take, at most. */
  function Remaining(pc: Pc): int {
    match pc
    case Claiming(_, cands, i, _) => 50 + 2 * (|cands| - i)
    case Stamping(_, cands, i, _) => 49 + 2 * (|cands| - i)
    case RollingBack(claimed, j) => 10 + |claimed| - j
    case Marking(_, claimed, j) => 30 + |claimed| - j
    case Removing(_, claimed, k) => 15 + |claimed| - k
    case Pushing(_, _) => 12
    case Counting(pending) => 1 + |pending|
    case _ => 0
  }

  lemma ClaimCounts(t: State, p: Pid, now: nat)
    requires Typed(t) && p < |t.procs|
    ensures t.procs[p].pc.Claiming? ==> 0 <= Remaining(ClaimStep(t, p).procs[p].pc) < Remaining(t.procs[p].pc)
    ensures t.procs[p].pc.Stamping? ==> 0 <= Remaining(StampStep(t, p, now).procs[p].pc) < Remaining(t.procs[p].pc)
  {
    assert PcTyped(t.players, t.procs[p].pc);
  }

  lemma LoopCounts(t: State, p: Pid, now: nat)
    requires Typed(t) && p < |t.procs|
    ensures t.procs[p].pc.RollingBack? ==> 0 <= Remaining(ReleaseStep(t, p).procs[p].pc) < Remaining(t.procs[p].pc)
    ensures t.procs[p].pc.Marking? ==> 0 <= Remaining(MarkStep(t, p, now).procs[p].pc) < Remaining(t.procs[p].pc)
    ensures t.procs[p].pc.Removing? ==> 0 <= Remaining(RemoveStep(t, p).procs[p].pc) < Remaining(t.procs[p].pc)
    ensures t.procs[p].pc.Counting? ==> 0 <= Remaining(CountStep(t, p).procs[p].pc) < Remaining(t.procs[p].pc)
  {
    assert PcTyped(t.players, t.procs[p].pc);
  }

  lemma SevenBumps(m: MatchRecord)
    ensures |MatchBumps(m)| == 7
  {
  }

  lemma PushCounts(t: State, p: Pid)
    requires Typed(t) && p < |t.procs| && t.procs[p].pc.Pushing? && Distinct(t.procs[p].pc.claimed)
    ensures 0 <= Remaining(PushStep(t, p).procs[p].pc) < Remaining(t.procs[p].pc)
  {
    hide MatchBumps;
    hide PushStep;
    hide Typed;
    hide GoodMatch;
    hide MatchOfPlayers;
    hide Distinct;
    var m := PushRecords(t, p);
    SevenBumps(m);
  }

  lemma StepsRemain(s: State, t: State, p: Pid, now: nat, seed: SeedView, cands: seq<Ref>)
    requires Typed(s) && Typed(t) && Ready(s, cands) && AttemptAt(s, t, p, seed, cands) && Enabled(t, Step(p, now))
    ensures p < |ExecStep(t, p, now).procs|
    ensures 0 <= Remaining(ExecStep(t, p, now).procs[p].pc) < Remaining(t.procs[p].pc)
  {
    hide Remaining;
    hide GaveUp;
    hide Succeeded;
    hide Trying;
    hide Won;
    hide GivingBack;
    hide Keeping;
    hide ClaimStep;
    hide StampStep;
    hide ReleaseStep;
    hide MarkStep;
    hide RemoveStep;
    hide PushStep;
    hide CountStep;
    ProgressStep(t, p, now);
    ClaimCounts(t, p, now);
    LoopCounts(t, p, now);
    if t.procs[p].pc.Pushing? {
      AtPush(s, t, p, seed, cands);
      PushCounts(t, p);
    }
  }

  lemma MayStep(s: State, t: State, p: Pid, now: nat, d: Assumptions, seed: SeedView, cands: seq<Ref>)
    requires Typed(s) && Typed(t) && ValidRefs(s.players, cands) && AttemptAt(s, t, p, seed, cands) && !t.procs[p].pc.Idle?
    ensures Enabled(t, Step(p, now)) && Meets(t, Step(p, now), d)
  {
  }

  lemma StepFirst(t: State, p: Pid, now: nat, d: Assumptions, rest: seq<Action>)
    requires Typed(t) && Enabled(t, Step(p, now)) && Meets(t, Step(p, now), d)
    requires Run(ExecStep(t, p, now), rest, d) && OwnSteps(rest, p)
    ensures var acts := [Step(p, now)] + rest;
      Run(t, acts, d) && OwnSteps(acts, p) && Final(t, acts, d) == Final(ExecStep(t, p, now), rest, d)
  {
    var acts := [Step(p, now)] + rest;
    assert acts[1..] == rest;
  }

  /** Left alone, an attempt does come to its end: some run of its own steps makes it idle. */
  lemma AttemptEnds(s: State, t: State, p: Pid, d: Assumptions, seed: SeedView, cands: seq<Ref>)
    returns (acts: seq<Action>)
    requires Typed(s) && Typed(t) && Ready(s, cands) && AttemptAt(s, t, p, seed, cands)
    ensures Run(t, acts, d) && OwnSteps(acts, p)
    ensures p < |Final(t, acts, d).procs| && Final(t, acts, d).procs[p].pc.Idle?
    decreases Remaining(t.procs[p].pc)
  {
    if t.procs[p].pc.Idle? {
      acts := [];
    } else {
      MayStep(s, t, p, 0, d, seed, cands);
      StepsRemain(s, t, p, 0, seed, cands);
      AttemptStep(s, t, p, 0, seed, cands);
      hide AttemptAt;
      hide Enabled;
      hide Meets;
      hide Remaining;
      hide Typed;
      var rest := AttemptEnds(s, ExecStep(t, p, 0), p, d, seed, cands);
      StepFirst(t, p, 0, d, rest);
      acts := [Step(p, 0)] + rest;
    }
  }
}
