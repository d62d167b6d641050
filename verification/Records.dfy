/** The player record's compare-and-swap state machine (src/models/mod.rs), on values.

    A `Rec` is the value of a player record at one moment. The functions on `Rec` say what
    each state transition does to that value; the class `Models.Player` performs the
    transitions in place, and the interleaving model of the claiming protocol is built from
    the very same functions. */
module Records {
  import opened Basics

  datatype Status = Waiting | Claimed | Matched | Evicted

  datatype Rec = Rec(
    id: Uuid,
    rating: nat,
    join: nat,
    state: Status,
    claimedBy: nat,
    claimTs: nat,
    matchedAt: Option<nat>
  )

  function NewRec(id: Uuid, rating: nat, join: nat): Rec {
    Rec(id, rating, join, Waiting, 0, 0, None)
  }

  /** The exchange at the heart of every transition: it takes effect only on the expected state. */
  function CompareExchange(r: Rec, expected: Status, desired: Status): Rec {
    if r.state == expected then r.(state := desired) else r
  }

  /** The stores that follow a successful claiming exchange. */
  function StampClaim(r: Rec, worker: nat, nowMs: nat): Rec {
    r.(claimedBy := worker, claimTs := nowMs)
  }

  function TryClaim(r: Rec, worker: nat, nowMs: nat): Rec {
    if r.state == Waiting then StampClaim(CompareExchange(r, Waiting, Claimed), worker, nowMs) else r
  }

  /** The claim fields are cleared whether or not the exchange takes effect. */
  function ReleaseClaim(r: Rec): Rec {
    CompareExchange(r.(claimedBy := 0, claimTs := 0), Claimed, Waiting)
  }

  /** The match time is stored whether or not the exchange takes effect. */
  function MarkMatched(r: Rec, now: nat): Rec {
    CompareExchange(r.(matchedAt := Some(now)), Claimed, Matched)
  }

  function TryEvict(r: Rec): Rec {
    CompareExchange(r, Waiting, Evicted)
  }

  /** A claim the reaper gives up on: stamped, and stamped too long ago. */
  predicate Stale(r: Rec, nowMs: nat, timeoutMs: nat) {
    r.state == Claimed && r.claimTs != 0 && SaturatingSub(nowMs, r.claimTs) > timeoutMs
  }

  function Reap(r: Rec, nowMs: nat, timeoutMs: nat): Rec {
    if Stale(r, nowMs, timeoutMs) then r.(state := Waiting, claimedBy := 0, claimTs := 0) else r
  }

  /** Two values of one record: the fields fixed at construction agree. */
  predicate SameIdentity(a: Rec, b: Rec) {
    a.id == b.id && a.rating == b.rating && a.join == b.join
  }

  predicate Unclaimed(r: Rec) {
    r.state == Waiting && r.claimedBy == 0 && r.claimTs == 0
  }

  /** Rolling back a claim undoes it completely. */
  lemma ReleaseUndoesClaim(r: Rec, worker: nat, nowMs: nat)
    requires Unclaimed(r)
    ensures ReleaseClaim(TryClaim(r, worker, nowMs)) == r
  {
  }

  /** Reaping an abandoned claim undoes it just as completely. */
  lemma ReapUndoesStaleClaim(r: Rec, worker: nat, claimMs: nat, nowMs: nat, timeoutMs: nat)
    requires Unclaimed(r)
    ensures Reap(TryClaim(r, worker, claimMs), nowMs, timeoutMs) == r
            <==> (claimMs != 0 && nowMs > claimMs + timeoutMs)
  {
  }

  datatype Transition =
    | Claim(worker: nat, nowMs: nat)
    | Release
    | Mark(now: nat)
    | Evict
    | Recover(nowMs: nat, timeoutMs: nat)

  function Apply(r: Rec, t: Transition): Rec {
    match t
    case Claim(worker, nowMs) => TryClaim(r, worker, nowMs)
    case Release => ReleaseClaim(r)
    case Mark(now) => MarkMatched(r, now)
    case Evict => TryEvict(r)
    case Recover(nowMs, timeoutMs) => Reap(r, nowMs, timeoutMs)
  }

  function ApplyAll(r: Rec, ts: seq<Transition>): Rec
    decreases |ts|
  {
    if ts == [] then r else ApplyAll(Apply(r, ts[0]), ts[1..])
  }

  /** Whatever transitions are thrown at a record, from any number of callers, a matched or
      evicted record stays matched or evicted, and its identity never changes. */
  lemma {:induction false} TerminalStatesAreFinal(r: Rec, ts: seq<Transition>)
    ensures SameIdentity(ApplyAll(r, ts), r)
    ensures r.state == Matched || r.state == Evicted ==> ApplyAll(r, ts).state == r.state
    decreases |ts|
  {
    if ts != [] {
      TerminalStatesAreFinal(Apply(r, ts[0]), ts[1..]);
    }
  }

  lemma {:induction false} ApplySplit(r: Rec, a: seq<Transition>, b: seq<Transition>)
    ensures ApplyAll(r, a + b) == ApplyAll(ApplyAll(r, a), b)
    decreases |a|
  {
    if a == [] {
      assert a + b == b;
    } else {
      assert (a + b)[1..] == a[1..] + b;
      ApplySplit(Apply(r, a[0]), a[1..], b);
    }
  }

  /** A record is never both matched and evicted, at whatever moments of whatever history of
      transitions it is looked at. */
  lemma OneWayOut(r: Rec, ts: seq<Transition>, i: nat, j: nat)
    requires i <= |ts| && j <= |ts|
    ensures !(ApplyAll(r, ts[..i]).state == Matched && ApplyAll(r, ts[..j]).state == Evicted)
  {
    var k, n := if i <= j then i else j, if i <= j then j else i;
    assert ts[..n] == ts[..k] + ts[k..n];
    ApplySplit(r, ts[..k], ts[k..n]);
    TerminalStatesAreFinal(ApplyAll(r, ts[..k]), ts[k..n]);
  }
}
