/** The claiming protocol as a transition system: any number of processes (workers, API
    callers, the reaper) interleave freely, and any of them may crash between two atomic
    operations. Every compare-and-swap, every pool update, every history push and every
    counter update is a step of its own.

    Records are named by their position in `players`, the list of all records ever created,
    so that a player who queues again gets a new record with the same id. What a range scan
    returns may be stale when it is used: an attempt goes on with any duplicate-free list of
    records inside its seed's window, whatever their state. */
module Protocol {
  import opened Basics
  import opened Records
  import opened Configuration
  import opened Relaxation
  import opened Balancer

  type Ref = nat
  type Pid = nat

  datatype Counter =
    | Enqueued | Cancelled | Created | PlayersMatched | QueueSize
    | SpreadSum | SpreadCount | DeltaSum | DeltaCount | Recovered
    | Cycles | Insufficient | ClaimFailures

  /** One `fetch_add` still to be performed. */
  datatype Bump = Bump(counter: Counter, amount: int)

  /** What an attempt remembers of its seed. */
  datatype SeedView = SeedView(rating: nat, elapsedMs: nat, config: Config)

  function Window(seed: SeedView): Bounds {
    ScanBounds(seed.rating, seed.elapsedMs, seed.config)
  }

  datatype MatchRecord = MatchRecord(
    claimed: seq<Ref>,
    ratings: seq<int>,
    teamA: seq<Ref>,
    teamB: seq<Ref>,
    skillSpread: nat,
    teamDelta: nat,
    seed: SeedView
  )

  /** Where a process is; loop bodies carry the loop's position in `next`. */
  datatype Pc =
    | Idle
    | Enqueuing(id: Uuid, rating: nat)
    | Seeded(seed: SeedView)
    | Scanning(seed: SeedView)
    | Claiming(seed: SeedView, cands: seq<Ref>, next: nat, claimed: seq<Ref>)
    | Stamping(seed: SeedView, cands: seq<Ref>, next: nat, claimed: seq<Ref>)
    | RollingBack(claimed: seq<Ref>, next: nat)
    | Marking(seed: SeedView, claimed: seq<Ref>, next: nat)
    | Removing(seed: SeedView, claimed: seq<Ref>, next: nat)
    | Pushing(seed: SeedView, claimed: seq<Ref>)
    | Counting(pending: seq<Bump>)
    | Cancelling(ref: Ref)
    | Evicting(ref: Ref)
    | Reaping(nowMs: nat, todo: seq<Ref>, recovered: nat)

  datatype Process = Process(pc: Pc, crashed: bool)

  /** The shared state. The fields after `historyLimit` are bookkeeping that no step reads: who
      last claimed or evicted each record, every match ever pushed, how often a cancellation or
      the reaper succeeded, and how many attempts found a seed, found too few candidates, or
      claimed too few. */
  datatype State = State(
    players: seq<Rec>,
    primary: map<Uuid, Ref>,
    history: seq<MatchRecord>,
    metrics: map<Counter, int>,
    procs: seq<Process>,
    config: Config,
    historyLimit: nat,
    owner: seq<Pid>,
    log: seq<MatchRecord>,
    evictions: nat,
    resets: nat,
    attempts: nat,
    shortages: nat,
    rollbacks: nat
  )

  datatype Operation =
    | Enqueue(id: Uuid, rating: nat)
    | Cancel(id: Uuid)
    | Attempt(seed: Ref, scanMs: nat)
    | ReaperTick(nowMs: nat, players: seq<Ref>)

  /** `Step` performs the next atomic operation of a busy process; `now` is its clock reading.
      `Found` is what a range scan returns. */
  datatype Action =
    | Begin(p: Pid, op: Operation)
    | Found(p: Pid, cands: seq<Ref>)
    | Step(p: Pid, now: nat)
    | Crash(p: Pid)

  // ---- Steps ---------------------------------------------------------------------------

  function SetPc(s: State, p: Pid, pc: Pc): State
    requires p < |s.procs|
  {
    s.(procs := s.procs[p := s.procs[p].(pc := pc)])
  }

  function SetPlayer(s: State, r: Ref, rec: Rec): State
    requires r < |s.players|
  {
    s.(players := s.players[r := rec])
  }

  function SetOwner(s: State, r: Ref, p: Pid): State
    requires r < |s.owner|
  {
    s.(owner := s.owner[r := p])
  }

  function RatingsOf(players: seq<Rec>, refs: seq<Ref>): (r: seq<int>)
    requires forall i :: 0 <= i < |refs| ==> refs[i] < |players|
    ensures |r| == |refs|
    ensures forall i :: 0 <= i < |r| ==> r[i] == players[refs[i]].rating
  {
    seq(|refs|, i requires 0 <= i < |refs| => players[refs[i]].rating)
  }

  ghost predicate ValidRefs(players: seq<Rec>, refs: seq<Ref>) {
    forall i :: 0 <= i < |refs| ==> refs[i] < |players|
  }

  ghost predicate InWindow(players: seq<Rec>, refs: seq<Ref>, window: Bounds) {
    forall i :: 0 <= i < |refs| ==> refs[i] < |players| && Within(players[refs[i]].rating, window)
  }

  ghost predicate Starts(s: State, op: Operation) {
    match op
    case Attempt(seed, _) => seed < |s.players|
    case ReaperTick(nowMs, players) => ValidRefs(s.players, players)
    case _ => true
  }

  ghost predicate Enabled(s: State, a: Action) {
    && a.p < |s.procs| && !s.procs[a.p].crashed
    && match a
       case Begin(p, op) => s.procs[p].pc.Idle? && Starts(s, op)
       case Found(p, cands) =>
         s.procs[p].pc.Scanning? && Distinct(cands) && InWindow(s.players, cands, Window(s.procs[p].pc.seed))
       case Step(p, _) => !s.procs[p].pc.Idle? && !s.procs[p].pc.Scanning?
       case Crash(_) => true
  }

  /** The match record of ten claimed players. */
  ghost function Form(s: State, seed: SeedView, claimed: seq<Ref>): MatchRecord
    requires |claimed| == MATCH_SIZE && ValidRefs(s.players, claimed)
    requires SafeRatings(RatingsOf(s.players, claimed))
  {
    var r := RatingsOf(s.players, claimed);
    var c := Bits(Best(r), MATCH_SIZE);
    MatchRecord(claimed, r, Chosen(claimed, c), Chosen(claimed, Complement(c)), Spread(r), MaskDelta(r, Best(r)), seed)
  }

  /** The counter updates after a match, in the order they are performed. */
  function MatchBumps(m: MatchRecord): seq<Bump> {
    [Bump(Created, 1), Bump(PlayersMatched, MATCH_SIZE), Bump(QueueSize, 0 - MATCH_SIZE),
     Bump(SpreadSum, m.skillSpread), Bump(SpreadCount, 1), Bump(DeltaSum, m.teamDelta), Bump(DeltaCount, 1)]
  }

  /** Facts without which an operation of the code would be out of bounds. */
  ghost predicate PcTyped(players: seq<Rec>, pc: Pc) {
    match pc
    case Idle => true
    case Enqueuing(_, rating) => rating <= MAX_SKILL_RATING
    case Seeded(seed) => seed.rating <= MAX_SKILL_RATING
    case Scanning(seed) => seed.rating <= MAX_SKILL_RATING
    case Claiming(seed, cands, next, claimed) =>
      && CandsTyped(players, seed, cands) && ClaimedTyped(players, seed, claimed)
      && next <= |cands| && |claimed| <= MATCH_SIZE
    case Stamping(seed, cands, next, claimed) =>
      && CandsTyped(players, seed, cands) && ClaimedTyped(players, seed, claimed)
      && next < |cands| && |claimed| < MATCH_SIZE
    case RollingBack(claimed, next) => ValidRefs(players, claimed) && next <= |claimed|
    case Marking(seed, claimed, next) => ClaimedTyped(players, seed, claimed) && |claimed| == MATCH_SIZE && next <= |claimed|
    case Removing(seed, claimed, next) => ClaimedTyped(players, seed, claimed) && |claimed| == MATCH_SIZE && next <= |claimed|
    case Pushing(seed, claimed) => ClaimedTyped(players, seed, claimed) && |claimed| == MATCH_SIZE
    case Counting(_) => true
    case Cancelling(ref) => ref < |players|
    case Evicting(ref) => ref < |players|
    case Reaping(_, todo, _) => ValidRefs(players, todo)
  }

  ghost predicate CandsTyped(players: seq<Rec>, seed: SeedView, cands: seq<Ref>) {
    Distinct(cands) && InWindow(players, cands, Window(seed))
  }

  ghost predicate ClaimedTyped(players: seq<Rec>, seed: SeedView, claimed: seq<Ref>) {
    seed.rating <= MAX_SKILL_RATING && InWindow(players, claimed, Window(seed))
  }

  ghost predicate Typed(s: State) {
    && |s.owner| == |s.players|
    && (forall r :: 0 <= r < |s.players| ==> s.players[r].rating <= MAX_SKILL_RATING)
    && (forall r :: 0 <= r < |s.owner| ==> s.owner[r] < |s.procs|)
    && (forall id :: id in s.primary ==> s.primary[id] < |s.players|)
    && (forall c: Counter :: c in s.metrics)
    && (forall p :: 0 <= p < |s.procs| ==> PcTyped(s.players, s.procs[p].pc))
  }

  ghost function Exec(s: State, a: Action): State
    requires Typed(s) && Enabled(s, a)
  {
    match a
    case Begin(p, op) => ExecBegin(s, p, op)
    case Found(p, cands) => ExecFound(s, p, cands)
    case Step(p, now) => ExecStep(s, p, now)
    case Crash(p) => s.(procs := s.procs[p := s.procs[p].(crashed := true)])
  }

  /** The test that opens each operation; a refused request leaves everything as it was. */
  ghost function ExecBegin(s: State, p: Pid, op: Operation): State
    requires p < |s.procs| && Starts(s, op)
  {
    match op
    case Enqueue(id, rating) =>
      if rating > MAX_SKILL_RATING || id in s.primary then s else SetPc(s, p, Enqueuing(id, rating))
    case Cancel(id) =>
      if id in s.primary then SetPc(s, p, Cancelling(s.primary[id])) else s
    case Attempt(seed, scanMs) =>
      var r := s.players[seed];
      SetPc(s.(attempts := s.attempts + 1), p, Seeded(SeedView(r.rating, SaturatingSub(scanMs, r.join), s.config)))
    case ReaperTick(nowMs, players) => SetPc(s, p, Reaping(nowMs, players, 0))
  }

  /** The result of a scan: go on to claim, or give up. */
  ghost function ExecFound(s: State, p: Pid, cands: seq<Ref>): State
    requires p < |s.procs| && s.procs[p].pc.Scanning?
  {
    if |cands| < MATCH_SIZE then
      SetPc(s.(shortages := s.shortages + 1), p, Counting([Bump(Insufficient, 1)]))
    else SetPc(s, p, Claiming(s.procs[p].pc.seed, cands, 0, []))
  }

  /** The next atomic operation of a busy process. */
  ghost function ExecStep(s: State, p: Pid, now: nat): State
    requires Typed(s) && p < |s.procs|
  {
    match s.procs[p].pc
    case Idle => s
    case Scanning(_) => s
    case Enqueuing(_, _) => InsertStep(s, p, now)
    case Seeded(_) => CycleStep(s, p)
    case Claiming(_, _, _, _) => ClaimStep(s, p)
    case Stamping(_, _, _, _) => StampStep(s, p, now)
    case RollingBack(_, _) => ReleaseStep(s, p)
    case Marking(_, _, _) => MarkStep(s, p, now)
    case Removing(_, _, _) => RemoveStep(s, p)
    case Pushing(_, _) => PushStep(s, p)
    case Counting(_) => CountStep(s, p)
    case Cancelling(_) => EvictStep(s, p)
    case Evicting(_) => UnlinkStep(s, p)
    case Reaping(_, _, _) => ReapStep(s, p)
  }

  /** Insert the record of a checked request. */
  function InsertStep(s: State, p: Pid, now: nat): State
    requires p < |s.procs| && s.procs[p].pc.Enqueuing?
  {
    var pc := s.procs[p].pc;
    SetPc(s.(players := s.players + [NewRec(pc.id, pc.rating, now)],
             owner := s.owner + [p],
             primary := s.primary[pc.id := |s.players|]),
          p, Counting([Bump(Enqueued, 1), Bump(QueueSize, 1)]))
  }

  /** A worker cycle is counted once there is a seed. */
  ghost function CycleStep(s: State, p: Pid): State
    requires Typed(s) && p < |s.procs| && s.procs[p].pc.Seeded?
  {
    SetPc(s.(metrics := s.metrics[Cycles := s.metrics[Cycles] + 1]), p, Scanning(s.procs[p].pc.seed))
  }

  /** The claim loop: stop at ten claims or at the end of the candidates, then commit or roll
      back; otherwise try the next candidate. */
  ghost function ClaimStep(s: State, p: Pid): State
    requires Typed(s) && p < |s.procs| && s.procs[p].pc.Claiming?
  {
    var pc := s.procs[p].pc;
    if |pc.claimed| == MATCH_SIZE then SetPc(s, p, Marking(pc.seed, pc.claimed, 0))
    else if pc.next == |pc.cands| then SetPc(s, p, RollingBack(pc.claimed, 0))
    else
      var r := pc.cands[pc.next];
      if s.players[r].state == Waiting then
        SetPc(SetOwner(SetPlayer(s, r, CompareExchange(s.players[r], Waiting, Claimed)), r, p),
              p, Stamping(pc.seed, pc.cands, pc.next, pc.claimed))
      else SetPc(s, p, Claiming(pc.seed, pc.cands, pc.next + 1, pc.claimed))
  }

  /** The stores that follow a successful claim. */
  ghost function StampStep(s: State, p: Pid, now: nat): State
    requires Typed(s) && p < |s.procs| && s.procs[p].pc.Stamping?
  {
    var pc := s.procs[p].pc;
    var r := pc.cands[pc.next];
    SetPc(SetPlayer(s, r, StampClaim(s.players[r], p, now)),
          p, Claiming(pc.seed, pc.cands, pc.next + 1, pc.claimed + [r]))
  }

  ghost function ReleaseStep(s: State, p: Pid): State
    requires Typed(s) && p < |s.procs| && s.procs[p].pc.RollingBack?
  {
    var pc := s.procs[p].pc;
    if pc.next == |pc.claimed| then
      SetPc(s.(rollbacks := s.rollbacks + 1), p, Counting([Bump(ClaimFailures, 1)]))
    else
      var r := pc.claimed[pc.next];
      SetPc(SetPlayer(s, r, ReleaseClaim(s.players[r])), p, RollingBack(pc.claimed, pc.next + 1))
  }

  ghost function MarkStep(s: State, p: Pid, now: nat): State
    requires Typed(s) && p < |s.procs| && s.procs[p].pc.Marking?
  {
    var pc := s.procs[p].pc;
    if pc.next == |pc.claimed| then SetPc(s, p, Removing(pc.seed, pc.claimed, 0))
    else
      var r := pc.claimed[pc.next];
      SetPc(SetPlayer(s, r, MarkMatched(s.players[r], now)), p, Marking(pc.seed, pc.claimed, pc.next + 1))
  }

  /** Removal is by id, whatever record is stored under it. */
  ghost function RemoveStep(s: State, p: Pid): State
    requires Typed(s) && p < |s.procs| && s.procs[p].pc.Removing?
  {
    var pc := s.procs[p].pc;
    if pc.next == |pc.claimed| then SetPc(s, p, Pushing(pc.seed, pc.claimed))
    else
      SetPc(s.(primary := s.primary - {s.players[pc.claimed[pc.next]].id}),
            p, Removing(pc.seed, pc.claimed, pc.next + 1))
  }

  ghost function PushStep(s: State, p: Pid): State
    requires Typed(s) && p < |s.procs| && s.procs[p].pc.Pushing?
  {
    var m := Form(s, s.procs[p].pc.seed, s.procs[p].pc.claimed);
    SetPc(s.(history := Newest(s.history + [m], s.historyLimit), log := s.log + [m]), p, Counting(MatchBumps(m)))
  }

  ghost function CountStep(s: State, p: Pid): State
    requires Typed(s) && p < |s.procs| && s.procs[p].pc.Counting?
  {
    var pending := s.procs[p].pc.pending;
    if pending == [] then SetPc(s, p, Idle)
    else
      var b := pending[0];
      SetPc(s.(metrics := s.metrics[b.counter := s.metrics[b.counter] + b.amount]), p, Counting(pending[1..]))
  }

  ghost function EvictStep(s: State, p: Pid): State
    requires Typed(s) && p < |s.procs| && s.procs[p].pc.Cancelling?
  {
    var r := s.procs[p].pc.ref;
    if s.players[r].state == Waiting then
      SetPc(SetOwner(SetPlayer(s, r, TryEvict(s.players[r])), r, p).(evictions := s.evictions + 1), p, Evicting(r))
    else SetPc(s, p, Idle)
  }

  ghost function UnlinkStep(s: State, p: Pid): State
    requires Typed(s) && p < |s.procs| && s.procs[p].pc.Evicting?
  {
    SetPc(s.(primary := s.primary - {s.players[s.procs[p].pc.ref].id}),
          p, Counting([Bump(QueueSize, -1), Bump(Cancelled, 1)]))
  }

  ghost function ReapStep(s: State, p: Pid): State
    requires Typed(s) && p < |s.procs| && s.procs[p].pc.Reaping?
  {
    var pc := s.procs[p].pc;
    if pc.todo == [] then SetPc(s, p, Counting([Bump(Recovered, pc.recovered)]))
    else
      var r := pc.todo[0];
      if Stale(s.players[r], pc.nowMs, s.config.staleClaimTimeoutMs) then
        SetPc(SetPlayer(s, r, Reap(s.players[r], pc.nowMs, s.config.staleClaimTimeoutMs)).(resets := s.resets + 1),
              p, Reaping(pc.nowMs, pc.todo[1..], pc.recovered + 1))
      else SetPc(s, p, Reaping(pc.nowMs, pc.todo[1..], pc.recovered))
  }

  // ---- Runs ----------------------------------------------------------------------------

  ghost predicate Init(s: State) {
    && s.players == [] && s.primary == map[] && s.history == [] && s.owner == [] && s.log == []
    && (forall c: Counter :: c in s.metrics && s.metrics[c] == 0)
    && (forall p :: 0 <= p < |s.procs| ==> s.procs[p] == Process(Idle, false))
    && s.evictions == 0 && s.resets == 0 && s.attempts == 0 && s.shortages == 0 && s.rollbacks == 0
  }

  /** The code tests for an id and inserts a record in separate steps. The first assumption:
      the id is still absent when the record goes in. */
  ghost predicate InsertsFresh(s: State, a: Action)
    requires Enabled(s, a)
  {
    a.Step? && s.procs[a.p].pc.Enqueuing? ==> s.procs[a.p].pc.id !in s.primary
  }

  /** The reaper cannot tell a slow worker from a crashed one. The second assumption: the claims
      it resets are those of crashed workers. */
  ghost predicate ReapsOnlyCrashed(s: State, a: Action)
    requires Typed(s) && Enabled(s, a)
  {
    a.Step? && s.procs[a.p].pc.Reaping? ==>
      var pc := s.procs[a.p].pc;
      pc.todo != [] && Stale(s.players[pc.todo[0]], pc.nowMs, s.config.staleClaimTimeoutMs) ==>
        s.procs[s.owner[pc.todo[0]]].crashed
  }

  /** Which of the two a result relies on. */
  datatype Assumptions = Assumptions(freshInserts: bool, crashedOwners: bool)

  const NOTHING: Assumptions := Assumptions(false, false)
  const BOTH: Assumptions := Assumptions(true, true)

  ghost predicate Meets(s: State, a: Action, d: Assumptions)
    requires Typed(s) && Enabled(s, a)
  {
    (d.freshInserts ==> InsertsFresh(s, a)) && (d.crashedOwners ==> ReapsOnlyCrashed(s, a))
  }

  /** A finite run whose every step meets the assumptions. Typing is no restriction, since every
      step keeps it (`Shape.TypedKept`). */
  ghost predicate Run(s: State, acts: seq<Action>, d: Assumptions)
    decreases |acts|
  {
    && Typed(s)
    && (acts != [] ==> Enabled(s, acts[0]) && Meets(s, acts[0], d) && Run(Exec(s, acts[0]), acts[1..], d))
  }

  ghost function Final(s: State, acts: seq<Action>, d: Assumptions): (t: State)
    requires Run(s, acts, d)
    ensures Typed(t)
    decreases |acts|
  {
    if acts == [] then s else Final(Exec(s, acts[0]), acts[1..], d)
  }
}
