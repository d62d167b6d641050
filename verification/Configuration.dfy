/** Runtime configuration and its cross-field validation (src/config/mod.rs). */
module Configuration {
  import opened Basics

  datatype Config = Config(
    workerTickMs: nat,
    staleClaimTimeoutMs: nat,
    stage1Ms: nat,
    stage2Ms: nat,
    stage3Ms: nat,
    stage4Ms: nat,
    stage1Delta: nat,
    stage2Delta: nat,
    stage3Delta: nat,
    stage4Delta: nat,
    stage5Delta: nat
  )

  /** Which cross-field constraint is violated. */
  datatype ConfigError = StageMs(stage: nat) | StageDelta(stage: nat) | StaleTimeout

  function Validate(c: Config): Result<(), ConfigError> {
    if c.stage1Ms >= c.stage2Ms then Err(StageMs(1))
    else if c.stage2Ms >= c.stage3Ms then Err(StageMs(2))
    else if c.stage3Ms >= c.stage4Ms then Err(StageMs(3))
    else if c.stage1Delta > c.stage2Delta then Err(StageDelta(1))
    else if c.stage2Delta > c.stage3Delta then Err(StageDelta(2))
    else if c.stage3Delta > c.stage4Delta then Err(StageDelta(3))
    else if c.stage4Delta > c.stage5Delta then Err(StageDelta(4))
    else if c.staleClaimTimeoutMs <= c.workerTickMs then Err(StaleTimeout)
    else Ok(())
  }

  function Thresholds(c: Config): (t: seq<nat>)
    ensures |t| == 4
  {
    [c.stage1Ms, c.stage2Ms, c.stage3Ms, c.stage4Ms]
  }

  function Deltas(c: Config): (d: seq<nat>)
    ensures |d| == 5
  {
    [c.stage1Delta, c.stage2Delta, c.stage3Delta, c.stage4Delta, c.stage5Delta]
  }

  /** Validation only compares neighbours, yet it accepts exactly the configurations whose
      thresholds all increase, whose deltas never decrease, and whose timeout exceeds the tick. */
  lemma ValidateMeans(c: Config)
    ensures Validate(c).Ok? <==>
      && (forall i, j :: 0 <= i < j < 4 ==> Thresholds(c)[i] < Thresholds(c)[j])
      && (forall i, j :: 0 <= i < j < 5 ==> Deltas(c)[i] <= Deltas(c)[j])
      && c.staleClaimTimeoutMs > c.workerTickMs
  {
    var t, d := Thresholds(c), Deltas(c);
    if forall i, j :: 0 <= i < j < 4 ==> t[i] < t[j] {
      assert t[0] < t[1] && t[1] < t[2] && t[2] < t[3];
    }
    if forall i, j :: 0 <= i < j < 5 ==> d[i] <= d[j] {
      assert d[0] <= d[1] && d[1] <= d[2] && d[2] <= d[3] && d[3] <= d[4];
    }
  }

  /** The error names the first violated constraint: every earlier neighbour pair is in order. */
  lemma ErrorNamesFirstViolation(c: Config)
    ensures Validate(c).Err? ==>
      match Validate(c).error
      case StageMs(k) =>
        && 1 <= k <= 3 && Thresholds(c)[k - 1] >= Thresholds(c)[k]
        && (forall i :: 1 <= i < k ==> Thresholds(c)[i - 1] < Thresholds(c)[i])
      case StageDelta(k) =>
        && 1 <= k <= 4 && Deltas(c)[k - 1] > Deltas(c)[k]
        && (forall i :: 1 <= i < 4 ==> Thresholds(c)[i - 1] < Thresholds(c)[i])
        && (forall i :: 1 <= i < k ==> Deltas(c)[i - 1] <= Deltas(c)[i])
      case StaleTimeout =>
        && c.staleClaimTimeoutMs <= c.workerTickMs
        && (forall i :: 1 <= i < 4 ==> Thresholds(c)[i - 1] < Thresholds(c)[i])
        && (forall i :: 1 <= i < 5 ==> Deltas(c)[i - 1] <= Deltas(c)[i])
  {
  }
}
