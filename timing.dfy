/**
 * The scheduler's two clocks (`AutoTimer`, `DefaultCommandTimer`).
 *
 * A WPILib `Timer` reads wall-clock seconds as a double. Here a timer is a
 * value with a running flag and an elapsed time in whole milliseconds, and
 * the passing of time is supplied by the caller (`Advance`): a running timer
 * accumulates it, a stopped one does not.
 */
module Timing {

  datatype Timer = Timer(running: bool, elapsed: nat)

  /** A `new Timer()`: stopped, reading zero. */
  const NewTimer: Timer := Timer(false, 0)

  /** The 15-second autonomous budget of `execute`, in milliseconds. */
  const Budget: nat := 15000

  function Start(t: Timer): Timer { t.(running := true) }

  function Stop(t: Timer): Timer { t.(running := false) }

  /** `dt` milliseconds of wall-clock time pass. */
  function Advance(t: Timer, dt: nat): (r: Timer)
    ensures r.running == t.running
    ensures r.elapsed == if t.running then t.elapsed + dt else t.elapsed
  {
    if t.running then t.(elapsed := t.elapsed + dt) else t
  }

  /** `timer.get() >= seconds`, with the threshold in milliseconds. */
  predicate Passed(t: Timer, ms: int) { t.elapsed >= ms }

  /** The timer after each of `dts` has passed in turn. */
  function AdvanceAll(t: Timer, dts: seq<nat>): (r: Timer)
    ensures r.running == t.running
    ensures r.elapsed >= t.elapsed
    decreases |dts|
  {
    if dts == [] then t else AdvanceAll(Advance(t, dts[0]), dts[1..])
  }

  /**
   * How many iterations `while (AutoTimer.get() < 15)` starts when the k-th
   * iteration is followed by `dts[k]` milliseconds, with no more than |dts|
   * iterations supplied.
   */
  function PassesRun(auto: Timer, dts: seq<nat>): (k: nat)
    ensures k <= |dts|
    decreases |dts|
  {
    if dts == [] || Passed(auto, Budget) then 0
    else 1 + PassesRun(Advance(auto, dts[0]), dts[1..])
  }

  /**
   * Every iteration that starts finds the auto timer below the budget, and
   * the loop stops before the supplied iterations run out only because the
   * budget was reached.
   */
  lemma {:induction false} PassesRunRespectBudget(auto: Timer, dts: seq<nat>)
    ensures forall k :: 0 <= k < PassesRun(auto, dts) ==> !Passed(AdvanceAll(auto, dts[..k]), Budget)
    ensures PassesRun(auto, dts) < |dts| ==> Passed(AdvanceAll(auto, dts[..PassesRun(auto, dts)]), Budget)
    decreases |dts|
  {
    if dts != [] && !Passed(auto, Budget) {
      var next := Advance(auto, dts[0]);
      PassesRunRespectBudget(next, dts[1..]);
      forall k | 0 <= k < PassesRun(auto, dts)
        ensures !Passed(AdvanceAll(auto, dts[..k]), Budget)
      {
        if k > 0 {
          assert dts[..k][1..] == dts[1..][..k - 1];
        }
      }
      var n := PassesRun(auto, dts);
      if n < |dts| {
        assert dts[..n][1..] == dts[1..][..n - 1];
      }
    }
  }

  /**
   * A stopped auto timer below the budget never ends the loop: every
   * supplied iteration runs (nothing in the legacy scheduler starts it).
   */
  lemma {:induction false} StoppedAutoTimerNeverEnds(auto: Timer, dts: seq<nat>)
    requires !auto.running && !Passed(auto, Budget)
    ensures PassesRun(auto, dts) == |dts|
    decreases |dts|
  {
    if dts != [] {
      StoppedAutoTimerNeverEnds(Advance(auto, dts[0]), dts[1..]);
    }
  }

  /**
   * A running auto timer, with at least one millisecond passing per
   * iteration, ends the loop within the remaining budget.
   */
  lemma {:induction false} RunningAutoTimerEnds(auto: Timer, dts: seq<nat>)
    requires auto.running
    requires forall k :: 0 <= k < |dts| ==> dts[k] >= 1
    ensures auto.elapsed + PassesRun(auto, dts) <= Budget || PassesRun(auto, dts) == 0
    decreases |dts|
  {
    if dts != [] && !Passed(auto, Budget) {
      RunningAutoTimerEnds(Advance(auto, dts[0]), dts[1..]);
    }
  }
}
