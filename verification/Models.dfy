/** Core domain models (src/models/mod.rs): the shared player object, snapshots, teams and
    the match record. */
module Models {
  import opened Basics
  import opened Records

  /** A queued player. Always shared by reference; its state changes in place. */
  class Player {
    const id: Uuid
    const skillRating: nat
    const joinTimestamp: nat
    var state: Status
    var claimedBy: nat
    var claimTimestamp: nat
    var matchedAt: Option<nat>

    constructor (id: Uuid, skillRating: nat, now: nat)
      ensures this.id == id && this.skillRating == skillRating && joinTimestamp == now
      ensures Value() == NewRec(id, skillRating, now)
    {
      this.id := id;
      this.skillRating := skillRating;
      joinTimestamp := now;
      state := Waiting;
      claimedBy := 0;
      claimTimestamp := 0;
      matchedAt := None;
    }

    function Value(): (r: Rec)
      reads this
      ensures r.id == id && r.rating == skillRating && r.join == joinTimestamp
      ensures r.state == state
    {
      Rec(id, skillRating, joinTimestamp, state, claimedBy, claimTimestamp, matchedAt)
    }

    method TryClaim(workerId: nat, nowMs: nat) returns (ok: bool)
      modifies this
      ensures ok <==> old(state) == Waiting
      ensures Value() == Records.TryClaim(old(Value()), workerId, nowMs)
    {
      if state == Waiting {
        state := Claimed;
        claimedBy := workerId;
        claimTimestamp := nowMs;
        ok := true;
      } else {
        ok := false;
      }
    }

    method ReleaseClaim()
      modifies this
      ensures Value() == Records.ReleaseClaim(old(Value()))
    {
      claimedBy := 0;
      claimTimestamp := 0;
      if state == Claimed {
        state := Waiting;
      }
    }

    method MarkMatched(now: nat)
      modifies this
      ensures Value() == Records.MarkMatched(old(Value()), now)
    {
      matchedAt := Some(now);
      if state == Claimed {
        state := Matched;
      }
    }

    method TryEvict() returns (ok: bool)
      modifies this
      ensures ok <==> old(state) == Waiting
      ensures Value() == Records.TryEvict(old(Value()))
    {
      ok := state == Waiting;
      if ok {
        state := Evicted;
      }
    }
  }

  datatype PlayerSnapshot = PlayerSnapshot(id: Uuid, rating: nat, waitMs: nat)

  /** Time between joining and `now`; a reading taken before the join counts as zero. */
  function Elapsed(join: nat, now: nat): nat {
    SaturatingSub(now, join)
  }

  /** Wait up to the match if there was one, up to `now` otherwise. */
  function WaitMs(r: Rec, now: nat): nat {
    match r.matchedAt
    case Some(t) => Elapsed(r.join, t)
    case None => Elapsed(r.join, now)
  }

  function Capture(r: Rec, now: nat): PlayerSnapshot {
    PlayerSnapshot(r.id, r.rating, WaitMs(r, now))
  }

  datatype Team = Team(players: seq<PlayerSnapshot>, totalRating: nat)

  function Ratings(ps: seq<PlayerSnapshot>): seq<int> {
    seq(|ps|, i requires 0 <= i < |ps| => ps[i].rating)
  }

  function NewTeam(players: seq<PlayerSnapshot>): Team {
    NonNegativeSum(Ratings(players));
    Team(players, Sum(Ratings(players)))
  }

  datatype Match = Match(
    teamA: Team,
    teamB: Team,
    teamDelta: nat,
    skillSpread: nat,
    avgWaitMs: nat,
    maxWaitMs: nat
  )

  function NewMatch(teamA: Team, teamB: Team, skillSpread: nat, avgWaitMs: nat, maxWaitMs: nat): Match {
    Match(teamA, teamB, AbsDiff(teamA.totalRating, teamB.totalRating), skillSpread, avgWaitMs, maxWaitMs)
  }
}
