/**
 * Trigger modes (`OperationMode`): how a command's condition value becomes a
 * run / do-not-run decision on each scheduler pass.
 *
 * The four Java subclasses `WhileTrue`, `WhileFalse`, `OnTrue`, `OnFalse`
 * (and their legacy twins `c_WhileTrue` ... `c_OnFalse`, which have the same
 * bodies) become one class whose variant is a constant `kind`. The edge
 * variants keep the 1-bit `lock` latch; the level variants never touch it.
 */
module OperationModes {

  datatype ModeKind = WhileTrue | WhileFalse | OnTrue | OnFalse

  /** What one poll returns, and the latch it leaves behind. */
  datatype Decision = Decision(run: bool, lock: bool)

  /**
   * `TruePoll()`: called when the condition reads true. Only the modes that
   * fire on true can run, `WhileTrue` always does, a latched `OnTrue` does
   * not fire again, the level modes leave the latch alone, and an edge latch
   * afterwards records that the reading was true.
   */
  function TrueStep(kind: ModeKind, lock: bool): (d: Decision)
    ensures d.run ==> kind == WhileTrue || kind == OnTrue
    ensures kind == WhileTrue ==> d.run
    ensures kind == OnTrue && lock ==> !d.run
    ensures kind == WhileTrue || kind == WhileFalse ==> d.lock == lock
    ensures kind == OnTrue || kind == OnFalse ==> d.lock == (kind == OnTrue)
  {
    match kind
    case WhileTrue => Decision(true, lock)
    case WhileFalse => Decision(false, lock)
    case OnTrue => Decision(!lock, true)
    case OnFalse => Decision(false, false)
  }

  /**
   * `FalsePoll()`: called when the condition reads false. The mirror of
   * `TrueStep`: only the modes that fire on false can run, `WhileFalse`
   * always does, a latched `OnFalse` does not fire again, and an edge latch
   * afterwards records that the reading was false.
   */
  function FalseStep(kind: ModeKind, lock: bool): (d: Decision)
    ensures d.run ==> kind == WhileFalse || kind == OnFalse
    ensures kind == WhileFalse ==> d.run
    ensures kind == OnFalse && lock ==> !d.run
    ensures kind == WhileTrue || kind == WhileFalse ==> d.lock == lock
    ensures kind == OnTrue || kind == OnFalse ==> d.lock == (kind == OnFalse)
  {
    match kind
    case WhileTrue => Decision(false, lock)
    case WhileFalse => Decision(true, lock)
    case OnTrue => Decision(false, false)
    case OnFalse => Decision(!lock, true)
  }

  /** The scheduler calls exactly one of the two polls, chosen by the condition. */
  function Step(kind: ModeKind, lock: bool, cond: bool): Decision
  {
    if cond then TrueStep(kind, lock) else FalseStep(kind, lock)
  }

  /** The decisions of successive polls of one mode object for the condition values `conds`. */
  function Decisions(kind: ModeKind, lock: bool, conds: seq<bool>): (r: seq<bool>)
    ensures |r| == |conds|
    decreases |conds|
  {
    if conds == [] then []
    else
      var d := Step(kind, lock, conds[0]);
      [d.run] + Decisions(kind, d.lock, conds[1..])
  }

  /** The latch after successive polls for the condition values `conds`. */
  function FinalLock(kind: ModeKind, lock: bool, conds: seq<bool>): bool
    decreases |conds|
  {
    if conds == [] then lock
    else FinalLock(kind, Step(kind, lock, conds[0]).lock, conds[1..])
  }

  /** Previous condition value, or what the latch stood for before the first poll. */
  function Before(lock: bool, conds: seq<bool>, i: nat): bool
    requires i < |conds|
  {
    if i == 0 then lock else conds[i - 1]
  }

  /**
   * The level modes are stateless: `WhileTrue` runs exactly when the
   * condition is true, `WhileFalse` exactly when it is false, whatever the
   * latch and the history.
   */
  lemma {:induction false} LevelModesIgnoreHistory(lock: bool, conds: seq<bool>, i: nat)
    requires i < |conds|
    ensures Decisions(WhileTrue, lock, conds)[i] == conds[i]
    ensures Decisions(WhileFalse, lock, conds)[i] == !conds[i]
    decreases |conds|
  {
    if i > 0 {
      LevelModesIgnoreHistory(Step(WhileTrue, lock, conds[0]).lock, conds[1..], i - 1);
      LevelModesIgnoreHistory(Step(WhileFalse, lock, conds[0]).lock, conds[1..], i - 1);
    }
  }

  /**
   * `OnTrue` runs exactly on a rising edge: the condition is true now and was
   * false on the previous poll (before the first poll, the latch plays the
   * previous value). So the latch always remembers the last condition.
   */
  lemma {:induction false} OnTrueFiresOnRisingEdges(lock: bool, conds: seq<bool>, i: nat)
    requires i < |conds|
    ensures Decisions(OnTrue, lock, conds)[i] == (conds[i] && !Before(lock, conds, i))
    decreases |conds|
  {
    if i > 0 {
      var d := Step(OnTrue, lock, conds[0]);
      assert d.lock == conds[0];
      OnTrueFiresOnRisingEdges(d.lock, conds[1..], i - 1);
    }
  }

  /** `OnFalse` is the mirror: it runs exactly on a falling edge. */
  lemma {:induction false} OnFalseFiresOnFallingEdges(lock: bool, conds: seq<bool>, i: nat)
    requires i < |conds|
    ensures Decisions(OnFalse, lock, conds)[i] == (!conds[i] && Before(!lock, conds, i))
    decreases |conds|
  {
    if i > 0 {
      var d := Step(OnFalse, lock, conds[0]);
      assert d.lock == !conds[0];
      OnFalseFiresOnFallingEdges(d.lock, conds[1..], i - 1);
    }
  }

  /** The edge latches remember the last condition value (`OnFalse` its negation). */
  lemma {:induction false} EdgeLatchTracksLastCondition(lock: bool, conds: seq<bool>)
    requires conds != []
    ensures FinalLock(OnTrue, lock, conds) == conds[|conds| - 1]
    ensures FinalLock(OnFalse, lock, conds) == !conds[|conds| - 1]
    decreases |conds|
  {
    if |conds| > 1 {
      EdgeLatchTracksLastCondition(Step(OnTrue, lock, conds[0]).lock, conds[1..]);
      EdgeLatchTracksLastCondition(Step(OnFalse, lock, conds[0]).lock, conds[1..]);
    }
  }

  /**
   * From a fresh latch, `OnTrue` runs on the first poll of every maximal run
   * `conds[a..b]` of true values, and on no other poll of that run.
   */
  lemma OnTrueOncePerRun(conds: seq<bool>, a: nat, b: nat)
    requires a < b <= |conds|
    requires forall k :: a <= k < b ==> conds[k]
    requires a == 0 || !conds[a - 1]
    ensures Decisions(OnTrue, false, conds)[a]
    ensures forall k :: a < k < b ==> !Decisions(OnTrue, false, conds)[k]
  {
    OnTrueFiresOnRisingEdges(false, conds, a);
    forall k | a < k < b
      ensures !Decisions(OnTrue, false, conds)[k]
    {
      OnTrueFiresOnRisingEdges(false, conds, k);
    }
  }

  /**
   * From a fresh latch, `OnFalse` runs on the first poll of every maximal run
   * `conds[a..b]` of false values, and on no other poll of that run.
   */
  lemma OnFalseOncePerRun(conds: seq<bool>, a: nat, b: nat)
    requires a < b <= |conds|
    requires forall k :: a <= k < b ==> !conds[k]
    requires a == 0 || conds[a - 1]
    ensures Decisions(OnFalse, false, conds)[a]
    ensures forall k :: a < k < b ==> !Decisions(OnFalse, false, conds)[k]
  {
    OnFalseFiresOnFallingEdges(false, conds, a);
    forall k | a < k < b
      ensures !Decisions(OnFalse, false, conds)[k]
    {
      OnFalseFiresOnFallingEdges(false, conds, k);
    }
  }

  /** The latches of the mode objects `modes`. */
  ghost function LocksOf(modes: set<OperationMode>): map<OperationMode, bool>
    reads modes`lock
  {
    map m | m in modes :: m.lock
  }

  /**
   * The scheduler's poll of `mode` on the branch `v`: exactly one of
   * `TruePoll` / `FalsePoll`, chosen by `v`; among the modes `ms` only the
   * latch of `mode` moves.
   */
  method PollLatch(mode: OperationMode, v: bool, ghost ms: set<OperationMode>) returns (run: bool)
    requires mode in ms
    modifies mode`lock
    ensures var d := Step(mode.kind, old(mode.lock), v);
            run == d.run && LocksOf(ms) == old(LocksOf(ms))[mode := d.lock]
  {
    if v {
      run := mode.TruePoll();
    } else {
      run := mode.FalsePoll();
    }
    assert LocksOf(ms) == old(LocksOf(ms))[mode := mode.lock];
  }

  /**
   * One trigger-mode object. Its identity matters: the legacy revision shares
   * one object between every command that uses a given mode.
   */
  class OperationMode {
    const kind: ModeKind
    var lock: bool

    /** `new OnTrue()` and friends: the latch starts cleared. */
    constructor (kind: ModeKind)
      ensures this.kind == kind && !lock
    {
      this.kind := kind;
      lock := false;
    }

    method TruePoll() returns (run: bool)
      modifies this`lock
      ensures Decision(run, lock) == TrueStep(kind, old(lock))
    {
      match kind
      case WhileTrue => run := true;
      case WhileFalse => run := false;
      case OnTrue =>
        var prev := lock;
        lock := true;
        run := !prev;
      case OnFalse =>
        lock := false;
        run := lock;
    }

    method FalsePoll() returns (run: bool)
      modifies this`lock
      ensures Decision(run, lock) == FalseStep(kind, old(lock))
    {
      match kind
      case WhileTrue => run := false;
      case WhileFalse => run := true;
      case OnTrue =>
        lock := false;
        run := lock;
      case OnFalse =>
        var prev := lock;
        lock := true;
        run := !prev;
    }
  }
}
