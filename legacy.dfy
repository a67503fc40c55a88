/**
 * The legacy revision (`frc.robot.libraries`): the same scheduler loop, with
 * three differences that matter.
 *   - The four mode objects are static fields of the command base: every
 *     command that declares `onTrue` holds the same object, and so shares
 *     its latch with every other such command. Dafny has no static fields,
 *     so the four objects live in one `StaticModes` object; a command shares
 *     a latch with another exactly when both are handed the same object.
 *   - A command starts with no mode (null), and each command builds its own
 *     pause tag, bound to itself; the tag acts on whatever scheduler is its
 *     command's parent when it is polled.
 *   - The pause tag emits no `end`/`initialize`, installs an empty array,
 *     and its saved array starts null.
 * Nothing in this revision starts the auto timer.
 */
module Legacy {
  import opened Behaviours
  import opened Timing
  import opened OperationModes
  import opened PauseSpec
  import opened PassModel

  /** A command's single `BooleanSupplier condition`, null until declared. */
  datatype Condition = NoCondition | Supplier(supplier: SupplierId)

  /** The static `whileTrue`, `whileFalse`, `onTrue`, `onFalse` of the command base. */
  class StaticModes {
    const whileTrue: OperationMode
    const whileFalse: OperationMode
    const onTrue: OperationMode
    const onFalse: OperationMode

    constructor ()
      ensures fresh(whileTrue) && fresh(whileFalse) && fresh(onTrue) && fresh(onFalse)
      ensures whileTrue.kind == WhileTrue && whileFalse.kind == WhileFalse
      ensures onTrue.kind == OnTrue && onFalse.kind == OnFalse
      ensures !onTrue.lock && !onFalse.lock
    {
      whileTrue := new OperationMode(WhileTrue);
      whileFalse := new OperationMode(WhileFalse);
      onTrue := new OperationMode(OnTrue);
      onFalse := new OperationMode(OnFalse);
    }
  }

  /** `c_PauseDefaultCommand`: bound to one command, acting on that command's parent scheduler. */
  class PauseDefaultCommand {
    var tlock: bool
    var flock: bool
    const thisCommandBase: AutoCommandBase
    var pausedDefaultCommandArr: Slot

    function State(): TagState
      reads this`tlock, this`flock, this`pausedDefaultCommandArr
    {
      TagState(tlock, flock, pausedDefaultCommandArr)
    }

    /** Both latches clear and the saved array null. */
    constructor (self: AutoCommandBase)
      ensures thisCommandBase == self && State() == TagState(false, false, Null)
    {
      tlock := false;
      flock := false;
      thisCommandBase := self;
      pausedDefaultCommandArr := Null;
    }

    method TruePoll()
      requires thisCommandBase.parentScheduler != null
      modifies this`tlock, this`flock, this`pausedDefaultCommandArr, thisCommandBase.parentScheduler`defaultCommandArr, thisCommandBase.parentScheduler`defaultCommandTimer
      ensures var s := thisCommandBase.parentScheduler;
              TagOutcome(State(), s.State(), false) == LegacyPauseTrue(old(State()), old(s.State()))
    {
      var s := thisCommandBase.parentScheduler;
      flock := false;
      if !tlock {
        pausedDefaultCommandArr := s.GetDefaultCommand();
        var _ := s.SetDefaultCommand(Arr([]));
        s.defaultCommandTimer := Stop(s.defaultCommandTimer);
        tlock := true;
      }
    }

    method FalsePoll()
      requires thisCommandBase.parentScheduler != null
      modifies this`tlock, this`flock, this`pausedDefaultCommandArr, thisCommandBase.parentScheduler`defaultCommandArr, thisCommandBase.parentScheduler`defaultCommandTimer
      ensures var s := thisCommandBase.parentScheduler;
              TagOutcome(State(), s.State(), false) == LegacyPauseFalse(old(State()), old(s.State()))
    {
      var s := thisCommandBase.parentScheduler;
      tlock := false;
      if !flock {
        var _ := s.SetDefaultCommand(pausedDefaultCommandArr);
        s.defaultCommandTimer := Start(s.defaultCommandTimer);
        flock := true;
      }
    }
  }

  /** The legacy `AutoCommandBase`. */
  class AutoCommandBase {
    const id: BehaviourId
    var parentScheduler: AutoCommandScheduler?
    var pauseDefaultOperation: PauseDefaultCommand?
    var condition: Condition
    var operationCondition: OperationMode?
    var operationTagArr: seq<PauseDefaultCommand>

    /** Field defaults: no parent, a pause tag of its own, no condition, no mode, no tags. */
    constructor (id: BehaviourId)
      ensures this.id == id && parentScheduler == null
      ensures pauseDefaultOperation != null && fresh(pauseDefaultOperation)
      ensures pauseDefaultOperation.thisCommandBase == this && pauseDefaultOperation.State() == TagState(false, false, Null)
      ensures condition == NoCondition && operationCondition == null && operationTagArr == []
    {
      this.id := id;
      parentScheduler := null;
      pauseDefaultOperation := null;
      condition := NoCondition;
      operationCondition := null;
      operationTagArr := [];
      new;
      pauseDefaultOperation := new PauseDefaultCommand(this);
    }

    function View(): CmdView<PauseDefaultCommand>
      reads this`condition, this`operationCondition, this`operationTagArr
    {
      CmdView(id, condition.Supplier?, operationCondition, operationTagArr)
    }

    method DeclareCondition(supplier: SupplierId) returns (self: AutoCommandBase)
      modifies this`condition
      ensures condition == Supplier(supplier) && self == this
    {
      condition := Supplier(supplier);
      self := this;
    }

    method DeclareOperationMode(mode: OperationMode?) returns (self: AutoCommandBase)
      modifies this`operationCondition
      ensures operationCondition == mode && self == this
    {
      operationCondition := mode;
      self := this;
    }
  }

  ghost function ViewsOf(cmds: seq<AutoCommandBase>): (cs: seq<CmdView<PauseDefaultCommand>>)
    reads (set c | c in cmds)`condition, (set c | c in cmds)`operationCondition, (set c | c in cmds)`operationTagArr
    ensures |cs| == |cmds| && forall i :: 0 <= i < |cmds| ==> cs[i] == cmds[i].View()
  {
    if cmds == [] then [] else [cmds[0].View()] + ViewsOf(cmds[1..])
  }

  ghost function TagStatesOf(tags: set<PauseDefaultCommand>): (r: map<PauseDefaultCommand, TagState>)
    reads tags`tlock, tags`flock, tags`pausedDefaultCommandArr
  {
    map t | t in tags :: t.State()
  }

  /** The owners of the tags `ts`. */
  ghost function OwnersOf(ts: set<PauseDefaultCommand>): set<AutoCommandBase>
  {
    set t | t in ts :: t.thisCommandBase
  }

  /** The legacy `AutoCommandScheduler`. */
  class AutoCommandScheduler {
    var autoTimer: Timer
    var defaultCommandTimer: Timer
    var defaultCommandArr: Slot
    var pollCommandArr: seq<AutoCommandBase>
    /** Calls into the outer command framework, in order. */
    var trace: seq<Event>

    function State(): Sched
      reads this`defaultCommandArr, this`autoTimer, this`defaultCommandTimer, this`trace
    {
      Sched(defaultCommandArr, autoTimer, defaultCommandTimer, trace)
    }

    function GetDefaultCommand(): Slot
      reads this`defaultCommandArr
    {
      defaultCommandArr
    }

    /** Both timers new, no default set yet, and every command told its parent. */
    constructor (cmds: seq<AutoCommandBase>)
      modifies cmds`parentScheduler
      ensures pollCommandArr == cmds
      ensures forall i :: 0 <= i < |cmds| ==> cmds[i].parentScheduler == this
      ensures autoTimer == NewTimer && defaultCommandTimer == NewTimer
      ensures GetDefaultCommand() == Null && trace == []
    {
      autoTimer := NewTimer;
      defaultCommandTimer := NewTimer;
      defaultCommandArr := Null;
      pollCommandArr := cmds;
      trace := [];
      new;
      for i := 0 to |cmds|
        invariant pollCommandArr == cmds && defaultCommandArr == Null && trace == []
        invariant autoTimer == NewTimer && defaultCommandTimer == NewTimer
        invariant forall k :: 0 <= k < i ==> cmds[k].parentScheduler == this
      {
        cmds[i].parentScheduler := this;
      }
    }

    method SetDefaultCommand(arr: Slot) returns (self: AutoCommandScheduler)
      modifies this`defaultCommandArr
      ensures GetDefaultCommand() == arr && self == this
    {
      defaultCommandArr := arr;
      self := this;
    }

    ghost function Views(): seq<CmdView<PauseDefaultCommand>>
      reads this, set c | c in pollCommandArr
    {
      ViewsOf(pollCommandArr)
    }

    /** The world of the pure model, read from the heap: the latches of `ms`, the tags `ts`, this scheduler. */
    ghost function WOf(ms: set<OperationMode>, ts: set<PauseDefaultCommand>, thrown: bool): World<PauseDefaultCommand>
      reads this`defaultCommandArr, this`autoTimer, this`defaultCommandTimer, this`trace, ms`lock, ts`tlock, ts`flock, ts`pausedDefaultCommandArr
    {
      World(LocksOf(ms), TagStatesOf(ts), State(), thrown)
    }

    /** The world of the commands `cmds`. */
    ghost function W(cmds: seq<AutoCommandBase>, thrown: bool): World<PauseDefaultCommand>
      reads this, (set c | c in cmds), ModesOf(ViewsOf(cmds)), TagsOf(ViewsOf(cmds))
    {
      WOf(ModesOf(ViewsOf(cmds)), TagsOf(ViewsOf(cmds)), thrown)
    }

    /** Every tag in `ts` belongs to a command whose parent is this scheduler. */
    ghost predicate OwnedHere(ts: set<PauseDefaultCommand>)
      reads OwnersOf(ts)`parentScheduler
    {
      forall t :: t in ts ==> t.thisCommandBase.parentScheduler == this
    }

    /** Every tag the commands carry belongs to a command whose parent is this scheduler. */
    ghost predicate TagsBoundHere(cmds: seq<AutoCommandBase>)
      reads (set c | c in cmds), OwnersOf(TagsOf(ViewsOf(cmds)))
    {
      OwnedHere(TagsOf(ViewsOf(cmds)))
    }

    /**
     * The commands `cmds` read as `cs`, which use only the modes `ms` and the
     * tags `ts`, and every tag they carry belongs to a command whose parent is
     * this scheduler.
     */
    ghost predicate Bound(cmds: seq<AutoCommandBase>, cs: seq<CmdView<PauseDefaultCommand>>, ms: set<OperationMode>, ts: set<PauseDefaultCommand>)
      reads (set c | c in cmds)`condition, (set c | c in cmds)`operationCondition, (set c | c in cmds)`operationTagArr
      reads (set k, t | 0 <= k < |cs| && t in cs[k].tags :: t.thisCommandBase)`parentScheduler
    {
      && |cmds| == |cs| && (forall k :: 0 <= k < |cmds| ==> cmds[k].View() == cs[k])
      && Covers(cs, ms, ts) && (forall k, t :: 0 <= k < |cs| && t in cs[k].tags ==> t.thisCommandBase.parentScheduler == this)
    }

    /** `for (d : defaultCommandArr) d.schedule();` -- iterating a null slot throws. */
    method ScheduleDefaultCommands(ghost ms: set<OperationMode>, ghost ts: set<PauseDefaultCommand>) returns (thrown: bool)
      modifies this`trace
      ensures WOf(ms, ts, thrown) == ScheduleDefaults(old(WOf(ms, ts, false)))
    {
      var arr := defaultCommandArr;
      if arr.Null? {
        return true;
      }
      ghost var t0 := trace;
      for k := 0 to |arr.ids|
        invariant trace == t0 + Schedules(arr.ids)[..k]
      {
        assert Schedules(arr.ids)[..k + 1] == Schedules(arr.ids)[..k] + [Schedule(arr.ids[k])];
        trace := trace + [Schedule(arr.ids[k])];
      }
      assert Schedules(arr.ids)[..|arr.ids|] == Schedules(arr.ids);
      thrown := false;
    }

    /** One tag polled on the branch `v`; a legacy tag never throws once its command has a parent. */
    method PollTag(t: PauseDefaultCommand, v: bool, ghost ms: set<OperationMode>, ghost ts: set<PauseDefaultCommand>)
      requires t in ts && t.thisCommandBase.parentScheduler == this
      modifies this`defaultCommandArr, this`defaultCommandTimer, t`tlock, t`flock, t`pausedDefaultCommandArr
      ensures WOf(ms, ts, false) == TagStep(Legacy, t, v, old(WOf(ms, ts, false)))
    {
      if v {
        t.TruePoll();
      } else {
        t.FalsePoll();
      }
      assert TagStatesOf(ts) == old(TagStatesOf(ts))[t := t.State()];
    }

    /** A command's tags, in list order, on the branch `v` of its condition. */
    method PollTags(tags: seq<PauseDefaultCommand>, v: bool, ghost ms: set<OperationMode>, ghost ts: set<PauseDefaultCommand>)
      requires forall t :: t in tags ==> t in ts && t.thisCommandBase.parentScheduler == this
      modifies this`defaultCommandArr, this`defaultCommandTimer, ts`tlock, ts`flock, ts`pausedDefaultCommandArr
      ensures WOf(ms, ts, false) == TagsStep(Legacy, tags, v, old(WOf(ms, ts, false)))
    {
      ghost var w0 := WOf(ms, ts, false);
      for j := 0 to |tags|
        invariant TagsStep(Legacy, tags[j..], v, WOf(ms, ts, false)) == TagsStep(Legacy, tags, v, w0)
      {
        assert tags[j..][1..] == tags[j + 1..];
        PollTag(tags[j], v, ms, ts);
      }
    }

    /**
     * The mode half of one command: read the condition (undeclared throws),
     * poll the mode on that branch (null throws), and emit `schedule()` if
     * the poll says run.
     */
    method PollModeOf(c: AutoCommandBase, v: bool, ghost ms: set<OperationMode>, ghost ts: set<PauseDefaultCommand>) returns (thrown: bool)
      requires CoversCmd(c.View(), ms, ts)
      modifies this`trace, ms`lock
      ensures WOf(ms, ts, thrown) == PollMode(c.View(), v, old(WOf(ms, ts, false)))
    {
      if c.condition.NoCondition? {
        return true;
      }
      var mode := c.operationCondition;
      if mode == null {
        return true;
      }
      var run := PollLatch(mode, v, ms);
      if run {
        trace := trace + [Schedule(c.id)];
      }
      thrown := false;
    }

    /** One command of a pass: its mode, then its tags on the same branch. */
    method PollCommand(c: AutoCommandBase, v: bool, ghost ms: set<OperationMode>, ghost ts: set<PauseDefaultCommand>) returns (thrown: bool)
      requires CoversCmd(c.View(), ms, ts)
      requires forall t :: t in c.operationTagArr ==> t.thisCommandBase.parentScheduler == this
      modifies this`defaultCommandArr, this`defaultCommandTimer, this`trace, ms`lock, ts`tlock, ts`flock, ts`pausedDefaultCommandArr
      ensures WOf(ms, ts, thrown) == CommandStep(Legacy, c.View(), v, old(WOf(ms, ts, false)))
    {
      thrown := PollModeOf(c, v, ms, ts);
      if !thrown {
        PollTags(c.operationTagArr, v, ms, ts);
      }
    }

    /** `for (autoCommandBase : pollCommandArr)`: the commands in array order. */
    method PollCommands(cmds: seq<AutoCommandBase>, vs: seq<bool>, ghost cs: seq<CmdView<PauseDefaultCommand>>,
                        ghost ms: set<OperationMode>, ghost ts: set<PauseDefaultCommand>) returns (thrown: bool)
      requires Bound(cmds, cs, ms, ts) && |vs| == |cs|
      modifies this`defaultCommandArr, this`defaultCommandTimer, this`trace, ms`lock, ts`tlock, ts`flock, ts`pausedDefaultCommandArr
      ensures WOf(ms, ts, thrown) == CommandsStep(Legacy, cs, vs, old(WOf(ms, ts, false)))
    {
      ghost var w0 := WOf(ms, ts, false);
      thrown := false;
      var i := 0;
      while i < |cmds| && !thrown
        invariant 0 <= i <= |cmds|
        invariant CommandsStep(Legacy, cs[i..], vs[i..], WOf(ms, ts, thrown)) == CommandsStep(Legacy, cs, vs, w0)
      {
        CommandsStepNext(Legacy, cs, vs, i, WOf(ms, ts, false));
        thrown := PollCommand(cmds[i], vs[i], ms, ts);
        i := i + 1;
      }
    }

    /** One iteration of the `while` loop of `execute`: the commands, then the defaults. */
    method PassOn(cmds: seq<AutoCommandBase>, vs: seq<bool>, ghost cs: seq<CmdView<PauseDefaultCommand>>,
                  ghost ms: set<OperationMode>, ghost ts: set<PauseDefaultCommand>) returns (thrown: bool)
      requires Bound(cmds, cs, ms, ts) && |vs| == |cs|
      modifies this`defaultCommandArr, this`defaultCommandTimer, this`trace, ms`lock, ts`tlock, ts`flock, ts`pausedDefaultCommandArr
      ensures WOf(ms, ts, thrown) == Pass(Legacy, cs, vs, old(WOf(ms, ts, false)))
    {
      thrown := PollCommands(cmds, vs, cs, ms, ts);
      if !thrown {
        thrown := ScheduleDefaultCommands(ms, ts);
      }
    }

    /** `dt` milliseconds of wall-clock time pass; each timer counts them if it is running. */
    method Elapse(dt: nat, ghost ms: set<OperationMode>, ghost ts: set<PauseDefaultCommand>)
      modifies this`autoTimer, this`defaultCommandTimer
      ensures WOf(ms, ts, false) == Tick(old(WOf(ms, ts, false)), dt)
    {
      autoTimer := Advance(autoTimer, dt);
      defaultCommandTimer := Advance(defaultCommandTimer, dt);
    }

    /** The body of the `while` loop: one pass, then the time that passes before the next test. */
    method PassThenElapse(cmds: seq<AutoCommandBase>, input: PassInput, ghost cs: seq<CmdView<PauseDefaultCommand>>,
                          ghost ms: set<OperationMode>, ghost ts: set<PauseDefaultCommand>) returns (thrown: bool)
      requires Bound(cmds, cs, ms, ts) && |input.conds| == |cs|
      modifies this`autoTimer, this`defaultCommandArr, this`defaultCommandTimer, this`trace, ms`lock, ts`tlock, ts`flock, ts`pausedDefaultCommandArr
      ensures Bound(cmds, cs, ms, ts)
      ensures var p := Pass(Legacy, cs, input.conds, old(WOf(ms, ts, false)));
              WOf(ms, ts, thrown) == if p.thrown then p else Tick(p, input.dt)
    {
      thrown := PassOn(cmds, input.conds, cs, ms, ts);
      if !thrown {
        Elapse(input.dt, ms, ts);
      }
    }

    /** The `while` loop of `execute` over the passes the caller supplies. */
    method RunOn(cmds: seq<AutoCommandBase>, inputs: seq<PassInput>, ghost cs: seq<CmdView<PauseDefaultCommand>>,
                 ghost ms: set<OperationMode>, ghost ts: set<PauseDefaultCommand>) returns (passes: nat, thrown: bool)
      requires Bound(cmds, cs, ms, ts) && WellShaped(cs, inputs)
      modifies this`autoTimer, this`defaultCommandArr, this`defaultCommandTimer, this`trace, ms`lock, ts`tlock, ts`flock, ts`pausedDefaultCommandArr
      ensures RunOutcome(WOf(ms, ts, thrown), passes) == Run(Legacy, cs, inputs, old(WOf(ms, ts, false)))
    {
      ghost var w := WOf(ms, ts, false);
      ghost var total := Run(Legacy, cs, inputs, w);
      passes := 0;
      thrown := false;
      while passes < |inputs| && !thrown && !Passed(autoTimer, Budget)
        invariant passes <= |inputs|
        invariant w == WOf(ms, ts, thrown)
        invariant Bound(cmds, cs, ms, ts)
        invariant Later(Run(Legacy, cs, inputs[passes..], w), passes) == total
      {
        RunAdvances(Legacy, cs, inputs, passes, w);
        thrown := PassThenElapse(cmds, inputs[passes], cs, ms, ts);
        w := WOf(ms, ts, thrown);
        passes := passes + 1;
      }
      RunStops(Legacy, cs, inputs[passes..], w);
    }

    /** One iteration of the `while` loop of `execute`. */
    method RunPass(vs: seq<bool>) returns (thrown: bool)
      requires |vs| == |pollCommandArr| && TagsBoundHere(pollCommandArr)
      modifies this`defaultCommandArr, this`defaultCommandTimer, this`trace, ModesOf(Views())`lock, TagsOf(Views())`tlock, TagsOf(Views())`flock, TagsOf(Views())`pausedDefaultCommandArr
      ensures W(pollCommandArr, thrown) == Pass(Legacy, old(Views()), vs, old(W(pollCommandArr, false)))
    {
      var cmds := pollCommandArr;
      ghost var cs := ViewsOf(cmds);
      thrown := PassOn(cmds, vs, cs, ModesOf(cs), TagsOf(cs));
      assert ViewsOf(cmds) == cs;
    }

    /**
     * `execute`: passes run while the auto timer reads below the budget, over
     * the passes the caller supplies; `dt` milliseconds of wall-clock time
     * pass after each one.
     */
    method Execute(inputs: seq<PassInput>) returns (passes: nat, thrown: bool)
      requires WellShaped(Views(), inputs) && TagsBoundHere(pollCommandArr)
      modifies this`autoTimer, this`defaultCommandArr, this`defaultCommandTimer, this`trace, ModesOf(Views())`lock, TagsOf(Views())`tlock, TagsOf(Views())`flock, TagsOf(Views())`pausedDefaultCommandArr
      ensures RunOutcome(W(pollCommandArr, thrown), passes) == Run(Legacy, old(Views()), inputs, old(W(pollCommandArr, false)))
    {
      var cmds := pollCommandArr;
      ghost var cs := ViewsOf(cmds);
      passes, thrown := RunOn(cmds, inputs, cs, ModesOf(cs), TagsOf(cs));
      assert ViewsOf(cmds) == cs;
    }
  }
}
