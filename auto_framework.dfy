/**
 * The newer revision (`frc.robot.libraries.AutoFramework`): the command base,
 * the pause-default tag and the scheduler as classes whose methods update
 * their fields in place.
 *
 * Each method that changes the scheduler's world is proved against the pure
 * model in `PassModel`: the ghost function `W` reads the heap (every mode
 * latch, every tag, the scheduler's own fields) into a `World`, and the
 * method's postcondition says that the new `W` is the model function applied
 * to the old one.
 */
module AutoFramework {
  import opened Behaviours
  import opened Timing
  import opened OperationModes
  import opened PauseSpec
  import opened PassModel

  /**
   * A command's `BooleanSupplier[] condition`: null until `declareCondition`
   * runs. A pass only needs to know whether it was declared; the value it
   * yields on each pass is an input.
   */
  datatype Condition = NoCondition | Suppliers(suppliers: seq<SupplierId>)

  /** `PauseDefaultCommand`: pauses the scheduler's default commands while its command's condition holds. */
  class PauseDefaultCommand {
    var tlock: bool
    var flock: bool
    var pausedDefaultCommand: Slot
    const thisCommandScheduler: AutoCommandScheduler

    function State(): TagState
      reads this`tlock, this`flock, this`pausedDefaultCommand
    {
      TagState(tlock, flock, pausedDefaultCommand)
    }

    /** Binds the tag to `scheduler` and saves the default value it holds now. */
    constructor (scheduler: AutoCommandScheduler)
      ensures thisCommandScheduler == scheduler
      ensures State() == TagState(false, false, scheduler.GetDefaultCommand())
    {
      tlock := false;
      flock := false;
      thisCommandScheduler := scheduler;
      pausedDefaultCommand := scheduler.GetDefaultCommand();
    }

    method TruePoll() returns (thrown: bool)
      modifies this`tlock, this`flock, this`pausedDefaultCommand, thisCommandScheduler`defaultCommandArr, thisCommandScheduler`defaultCommandTimer, thisCommandScheduler`trace
      ensures TagOutcome(State(), thisCommandScheduler.State(), thrown) == PauseTrue(old(State()), old(thisCommandScheduler.State()))
    {
      var s := thisCommandScheduler;
      flock := false;
      thrown := false;
      if !tlock {
        pausedDefaultCommand := s.GetDefaultCommand();
        var current := s.GetDefaultCommand();
        if current.Null? {
          // `end(false)` on a null value
          return true;
        }
        s.trace := s.trace + [End(current.ids)];
        var _ := s.SetDefaultCommand(Arr([Instant]));
        s.defaultCommandTimer := Stop(s.defaultCommandTimer);
        tlock := true;
      }
    }

    method FalsePoll() returns (thrown: bool)
      modifies this`tlock, this`flock, this`pausedDefaultCommand, thisCommandScheduler`defaultCommandArr, thisCommandScheduler`defaultCommandTimer, thisCommandScheduler`trace
      ensures TagOutcome(State(), thisCommandScheduler.State(), thrown) == PauseFalse(old(State()), old(thisCommandScheduler.State()))
    {
      var s := thisCommandScheduler;
      tlock := false;
      thrown := false;
      if !flock {
        var _ := s.SetDefaultCommand(pausedDefaultCommand);
        if pausedDefaultCommand.Null? {
          // `initialize()` on a null value
          return true;
        }
        s.trace := s.trace + [Initialize(pausedDefaultCommand.ids)];
        s.defaultCommandTimer := Start(s.defaultCommandTimer);
        flock := true;
      }
    }
  }

  /** `AutoCommandBase`: a command the scheduler polls. */
  class AutoCommandBase {
    const id: BehaviourId
    var parentScheduler: AutoCommandScheduler?
    var condition: Condition
    var operationCondition: OperationMode?
    var operationTagArr: seq<PauseDefaultCommand>
    var endLock: bool

    /** Field defaults: no parent, no condition, a fresh `WhileTrue` mode, no tags. */
    constructor (id: BehaviourId)
      ensures this.id == id && parentScheduler == null && condition == NoCondition
      ensures operationCondition != null && fresh(operationCondition)
      ensures operationCondition.kind == WhileTrue && !operationCondition.lock
      ensures operationTagArr == [] && endLock
    {
      this.id := id;
      parentScheduler := null;
      condition := NoCondition;
      operationCondition := new OperationMode(WhileTrue);
      operationTagArr := [];
      endLock := true;
    }

    /** What a pass reads of this command. */
    function View(): CmdView<PauseDefaultCommand>
      reads this`condition, this`operationCondition, this`operationTagArr
    {
      CmdView(id, condition.Suppliers?, operationCondition, operationTagArr)
    }

    method DeclareCondition(suppliers: seq<SupplierId>) returns (self: AutoCommandBase)
      modifies this`condition
      ensures condition == Suppliers(suppliers) && self == this
    {
      condition := Suppliers(suppliers);
      self := this;
    }

    method DeclareOperationMode(mode: OperationMode?) returns (self: AutoCommandBase)
      modifies this`operationCondition
      ensures operationCondition == mode && self == this
    {
      operationCondition := mode;
      self := this;
    }

    /**
     * Clears the tag list and refills it from `tags`. The result does not
     * depend on the list before the call, so declaring the same tags twice
     * leaves what declaring them once does.
     */
    method DeclareOperationTag(tags: seq<PauseDefaultCommand>) returns (self: AutoCommandBase)
      modifies this`operationTagArr
      ensures operationTagArr == tags && self == this
    {
      operationTagArr := [];
      for i := 0 to |tags|
        invariant operationTagArr == tags[..i]
      {
        operationTagArr := operationTagArr + [tags[i]];
      }
      self := this;
    }
  }

  /** What a pass reads of each command, in array order. */
  ghost function ViewsOf(cmds: seq<AutoCommandBase>): (cs: seq<CmdView<PauseDefaultCommand>>)
    reads (set c | c in cmds)`condition, (set c | c in cmds)`operationCondition, (set c | c in cmds)`operationTagArr
    ensures |cs| == |cmds| && forall i :: 0 <= i < |cmds| ==> cs[i] == cmds[i].View()
  {
    if cmds == [] then [] else [cmds[0].View()] + ViewsOf(cmds[1..])
  }

  ghost function TagStatesOf(tags: set<PauseDefaultCommand>): (r: map<PauseDefaultCommand, TagState>)
    reads tags`tlock, tags`flock, tags`pausedDefaultCommand
  {
    map t | t in tags :: t.State()
  }

  /** `AutoCommandScheduler`. */
  class AutoCommandScheduler {
    var autoTimer: Timer
    var defaultCommandTimer: Timer
    var defaultCommandArr: Slot
    var pollCommandArr: seq<AutoCommandBase>
    /** Calls into the outer command framework, in order. */
    var trace: seq<Event>

    function State(): Sched
      reads this`defaultCommandArr, this`autoTimer, this`defaultCommandTimer, this`trace
    {
      Sched(defaultCommandArr, autoTimer, defaultCommandTimer, trace)
    }

    function GetDefaultCommand(): Slot
      reads this`defaultCommandArr
    {
      defaultCommandArr
    }

    function AutoTimePassed(ms: int): (r: bool)
      reads this`autoTimer
      ensures r <==> autoTimer.elapsed >= ms
    {
      Passed(autoTimer, ms)
    }

    function DefaultTimePassed(ms: int): (r: bool)
      reads this`defaultCommandTimer
      ensures r <==> defaultCommandTimer.elapsed >= ms
    {
      Passed(defaultCommandTimer, ms)
    }

    /** Both timers new, no default set yet, and every command told its parent. */
    constructor (cmds: seq<AutoCommandBase>)
      modifies cmds`parentScheduler
      ensures pollCommandArr == cmds
      ensures forall i :: 0 <= i < |cmds| ==> cmds[i].parentScheduler == this
      ensures autoTimer == NewTimer && defaultCommandTimer == NewTimer
      ensures GetDefaultCommand() == Null && trace == []
    {
      autoTimer := NewTimer;
      defaultCommandTimer := NewTimer;
      defaultCommandArr := Null;
      pollCommandArr := [];
      trace := [];
      new;
      var _ := SetCommands(cmds);
    }

    method SetCommands(cmds: seq<AutoCommandBase>) returns (self: AutoCommandScheduler)
      modifies this`pollCommandArr, cmds`parentScheduler
      ensures pollCommandArr == cmds && self == this
      ensures forall i :: 0 <= i < |cmds| ==> cmds[i].parentScheduler == this
    {
      pollCommandArr := cmds;
      for i := 0 to |cmds|
        invariant pollCommandArr == cmds
        invariant forall k :: 0 <= k < i ==> cmds[k].parentScheduler == this
      {
        cmds[i].parentScheduler := this;
      }
      self := this;
    }

    method SetDefaultCommand(arr: Slot) returns (self: AutoCommandScheduler)
      modifies this`defaultCommandArr
      ensures GetDefaultCommand() == arr && self == this
    {
      defaultCommandArr := arr;
      self := this;
    }

    method Initialize()
      modifies this`autoTimer, this`defaultCommandTimer
      ensures autoTimer == Start(old(autoTimer)) && defaultCommandTimer == Start(old(defaultCommandTimer))
      ensures autoTimer.running && defaultCommandTimer.running
    {
      autoTimer := Start(autoTimer);
      defaultCommandTimer := Start(defaultCommandTimer);
    }

    /** Stops both timers; nothing is emitted on any command. */
    method End(interrupted: bool)
      modifies this`autoTimer, this`defaultCommandTimer
      ensures autoTimer == Stop(old(autoTimer)) && defaultCommandTimer == Stop(old(defaultCommandTimer))
      ensures !autoTimer.running && !defaultCommandTimer.running && trace == old(trace)
    {
      autoTimer := Stop(autoTimer);
      defaultCommandTimer := Stop(defaultCommandTimer);
    }

    ghost function Views(): seq<CmdView<PauseDefaultCommand>>
      reads this, set c | c in pollCommandArr
    {
      ViewsOf(pollCommandArr)
    }

    /** The world of the pure model, read from the heap: the latches of `ms`, the tags `ts`, this scheduler. */
    ghost function WOf(ms: set<OperationMode>, ts: set<PauseDefaultCommand>, thrown: bool): World<PauseDefaultCommand>
      reads this`defaultCommandArr, this`autoTimer, this`defaultCommandTimer, this`trace, ms`lock, ts`tlock, ts`flock, ts`pausedDefaultCommand
    {
      World(LocksOf(ms), TagStatesOf(ts), State(), thrown)
    }

    /** The world of the commands `cmds`. */
    ghost function W(cmds: seq<AutoCommandBase>, thrown: bool): World<PauseDefaultCommand>
      reads this, (set c | c in cmds), ModesOf(ViewsOf(cmds)), TagsOf(ViewsOf(cmds))
    {
      WOf(ModesOf(ViewsOf(cmds)), TagsOf(ViewsOf(cmds)), thrown)
    }

    /** Every tag the commands carry acts on this scheduler. */
    ghost predicate TagsBoundHere(cmds: seq<AutoCommandBase>)
      reads set c | c in cmds
    {
      forall t :: t in TagsOf(ViewsOf(cmds)) ==> t.thisCommandScheduler == this
    }

    /**
     * The commands `cmds` read as `cs`, which use only the modes `ms` and the
     * tags `ts`, and every one of those tags acts on this scheduler.
     */
    ghost predicate Bound(cmds: seq<AutoCommandBase>, cs: seq<CmdView<PauseDefaultCommand>>, ms: set<OperationMode>, ts: set<PauseDefaultCommand>)
      reads (set c | c in cmds)`condition, (set c | c in cmds)`operationCondition, (set c | c in cmds)`operationTagArr
    {
      && |cmds| == |cs| && (forall k :: 0 <= k < |cmds| ==> cmds[k].View() == cs[k])
      && Covers(cs, ms, ts) && (forall t :: t in ts ==> t.thisCommandScheduler == this)
    }

    /** `for (d : defaultCommandArr) d.schedule();` -- iterating a null slot throws. */
    method ScheduleDefaultCommands(ghost ms: set<OperationMode>, ghost ts: set<PauseDefaultCommand>) returns (thrown: bool)
      modifies this`trace
      ensures WOf(ms, ts, thrown) == ScheduleDefaults(old(WOf(ms, ts, false)))
    {
      var arr := defaultCommandArr;
      if arr.Null? {
        return true;
      }
      ghost var t0 := trace;
      for k := 0 to |arr.ids|
        invariant trace == t0 + Schedules(arr.ids)[..k]
      {
        assert Schedules(arr.ids)[..k + 1] == Schedules(arr.ids)[..k] + [Schedule(arr.ids[k])];
        trace := trace + [Schedule(arr.ids[k])];
      }
      assert Schedules(arr.ids)[..|arr.ids|] == Schedules(arr.ids);
      thrown := false;
    }

    /** One tag polled on the branch `v`. */
    method PollTag(t: PauseDefaultCommand, v: bool, ghost ms: set<OperationMode>, ghost ts: set<PauseDefaultCommand>) returns (thrown: bool)
      requires t in ts && t.thisCommandScheduler == this
      modifies this`defaultCommandArr, this`defaultCommandTimer, this`trace, t`tlock, t`flock, t`pausedDefaultCommand
      ensures WOf(ms, ts, thrown) == TagStep(Framework, t, v, old(WOf(ms, ts, false)))
    {
      if v {
        thrown := t.TruePoll();
      } else {
        thrown := t.FalsePoll();
      }
      assert TagStatesOf(ts) == old(TagStatesOf(ts))[t := t.State()];
    }

    /** A command's tags, in list order, on the branch `v` of its condition. */
    method PollTags(tags: seq<PauseDefaultCommand>, v: bool, ghost ms: set<OperationMode>, ghost ts: set<PauseDefaultCommand>) returns (thrown: bool)
      requires forall t :: t in tags ==> t in ts && t.thisCommandScheduler == this
      modifies this`defaultCommandArr, this`defaultCommandTimer, this`trace, ts`tlock, ts`flock, ts`pausedDefaultCommand
      ensures WOf(ms, ts, thrown) == TagsStep(Framework, tags, v, old(WOf(ms, ts, false)))
    {
      ghost var w0 := WOf(ms, ts, false);
      thrown := false;
      var j := 0;
      while j < |tags| && !thrown
        invariant 0 <= j <= |tags|
        invariant TagsStep(Framework, tags[j..], v, WOf(ms, ts, thrown)) == TagsStep(Framework, tags, v, w0)
      {
        assert tags[j..][1..] == tags[j + 1..];
        thrown := PollTag(tags[j], v, ms, ts);
        j := j + 1;
      }
    }

    /**
     * The mode half of one command: read the condition (undeclared throws),
     * poll the mode on that branch (null throws), and emit `schedule()` if
     * the poll says run.
     */
    method PollModeOf(c: AutoCommandBase, v: bool, ghost ms: set<OperationMode>, ghost ts: set<PauseDefaultCommand>) returns (thrown: bool)
      requires CoversCmd(c.View(), ms, ts)
      modifies this`trace, ms`lock
      ensures WOf(ms, ts, thrown) == PollMode(c.View(), v, old(WOf(ms, ts, false)))
    {
      if c.condition.NoCondition? {
        return true;
      }
      var mode := c.operationCondition;
      if mode == null {
        return true;
      }
      var run := PollLatch(mode, v, ms);
      if run {
        trace := trace + [Schedule(c.id)];
      }
      thrown := false;
    }

    /** One command of a pass: its mode, then its tags on the same branch. */
    method PollCommand(c: AutoCommandBase, v: bool, ghost ms: set<OperationMode>, ghost ts: set<PauseDefaultCommand>) returns (thrown: bool)
      requires CoversCmd(c.View(), ms, ts)
      requires forall t :: t in c.operationTagArr ==> t.thisCommandScheduler == this
      modifies this`defaultCommandArr, this`defaultCommandTimer, this`trace, ms`lock, ts`tlock, ts`flock, ts`pausedDefaultCommand
      ensures WOf(ms, ts, thrown) == CommandStep(Framework, c.View(), v, old(WOf(ms, ts, false)))
    {
      thrown := PollModeOf(c, v, ms, ts);
      if !thrown {
        thrown := PollTags(c.operationTagArr, v, ms, ts);
      }
    }

    /** `for (autoCommandBase : pollCommandArr)`: the commands in array order. */
    method PollCommands(cmds: seq<AutoCommandBase>, vs: seq<bool>, ghost cs: seq<CmdView<PauseDefaultCommand>>,
                        ghost ms: set<OperationMode>, ghost ts: set<PauseDefaultCommand>) returns (thrown: bool)
      requires Bound(cmds, cs, ms, ts) && |vs| == |cs|
      modifies this`defaultCommandArr, this`defaultCommandTimer, this`trace, ms`lock, ts`tlock, ts`flock, ts`pausedDefaultCommand
      ensures WOf(ms, ts, thrown) == CommandsStep(Framework, cs, vs, old(WOf(ms, ts, false)))
    {
      ghost var w0 := WOf(ms, ts, false);
      thrown := false;
      var i := 0;
      while i < |cmds| && !thrown
        invariant 0 <= i <= |cmds|
        invariant CommandsStep(Framework, cs[i..], vs[i..], WOf(ms, ts, thrown)) == CommandsStep(Framework, cs, vs, w0)
      {
        CommandsStepNext(Framework, cs, vs, i, WOf(ms, ts, false));
        thrown := PollCommand(cmds[i], vs[i], ms, ts);
        i := i + 1;
      }
    }

    /** One iteration of the `while` loop of `execute`: the commands, then the defaults. */
    method PassOn(cmds: seq<AutoCommandBase>, vs: seq<bool>, ghost cs: seq<CmdView<PauseDefaultCommand>>,
                  ghost ms: set<OperationMode>, ghost ts: set<PauseDefaultCommand>) returns (thrown: bool)
      requires Bound(cmds, cs, ms, ts) && |vs| == |cs|
      modifies this`defaultCommandArr, this`defaultCommandTimer, this`trace, ms`lock, ts`tlock, ts`flock, ts`pausedDefaultCommand
      ensures WOf(ms, ts, thrown) == Pass(Framework, cs, vs, old(WOf(ms, ts, false)))
    {
      thrown := PollCommands(cmds, vs, cs, ms, ts);
      if !thrown {
        thrown := ScheduleDefaultCommands(ms, ts);
      }
    }

    /** `dt` milliseconds of wall-clock time pass; each timer counts them if it is running. */
    method Elapse(dt: nat, ghost ms: set<OperationMode>, ghost ts: set<PauseDefaultCommand>)
      modifies this`autoTimer, this`defaultCommandTimer
      ensures WOf(ms, ts, false) == Tick(old(WOf(ms, ts, false)), dt)
    {
      autoTimer := Advance(autoTimer, dt);
      defaultCommandTimer := Advance(defaultCommandTimer, dt);
    }

    /** The body of the `while` loop: one pass, then the time that passes before the next test. */
    method PassThenElapse(cmds: seq<AutoCommandBase>, input: PassInput, ghost cs: seq<CmdView<PauseDefaultCommand>>,
                          ghost ms: set<OperationMode>, ghost ts: set<PauseDefaultCommand>) returns (thrown: bool)
      requires Bound(cmds, cs, ms, ts) && |input.conds| == |cs|
      modifies this`autoTimer, this`defaultCommandArr, this`defaultCommandTimer, this`trace, ms`lock, ts`tlock, ts`flock, ts`pausedDefaultCommand
      ensures Bound(cmds, cs, ms, ts)
      ensures var p := Pass(Framework, cs, input.conds, old(WOf(ms, ts, false)));
              WOf(ms, ts, thrown) == if p.thrown then p else Tick(p, input.dt)
    {
      thrown := PassOn(cmds, input.conds, cs, ms, ts);
      if !thrown {
        Elapse(input.dt, ms, ts);
      }
    }

    /** The `while` loop of `execute` over the passes the caller supplies. */
    method RunOn(cmds: seq<AutoCommandBase>, inputs: seq<PassInput>, ghost cs: seq<CmdView<PauseDefaultCommand>>,
                 ghost ms: set<OperationMode>, ghost ts: set<PauseDefaultCommand>) returns (passes: nat, thrown: bool)
      requires Bound(cmds, cs, ms, ts) && WellShaped(cs, inputs)
      modifies this`autoTimer, this`defaultCommandArr, this`defaultCommandTimer, this`trace, ms`lock, ts`tlock, ts`flock, ts`pausedDefaultCommand
      ensures RunOutcome(WOf(ms, ts, thrown), passes) == Run(Framework, cs, inputs, old(WOf(ms, ts, false)))
    {
      ghost var w := WOf(ms, ts, false);
      ghost var total := Run(Framework, cs, inputs, w);
      passes := 0;
      thrown := false;
      while passes < |inputs| && !thrown && !AutoTimePassed(Budget)
        invariant passes <= |inputs|
        invariant w == WOf(ms, ts, thrown)
        invariant Bound(cmds, cs, ms, ts)
        invariant Later(Run(Framework, cs, inputs[passes..], w), passes) == total
      {
        RunAdvances(Framework, cs, inputs, passes, w);
        thrown := PassThenElapse(cmds, inputs[passes], cs, ms, ts);
        w := WOf(ms, ts, thrown);
        passes := passes + 1;
      }
      RunStops(Framework, cs, inputs[passes..], w);
    }

    /** One iteration of the `while` loop of `execute`. */
    method RunPass(vs: seq<bool>) returns (thrown: bool)
      requires |vs| == |pollCommandArr| && TagsBoundHere(pollCommandArr)
      modifies this`defaultCommandArr, this`defaultCommandTimer, this`trace, ModesOf(Views())`lock, TagsOf(Views())`tlock, TagsOf(Views())`flock, TagsOf(Views())`pausedDefaultCommand
      ensures W(pollCommandArr, thrown) == Pass(Framework, old(Views()), vs, old(W(pollCommandArr, false)))
    {
      var cmds := pollCommandArr;
      ghost var cs := ViewsOf(cmds);
      thrown := PassOn(cmds, vs, cs, ModesOf(cs), TagsOf(cs));
      assert ViewsOf(cmds) == cs;
    }

    /**
     * `execute`: passes run while the auto timer reads below the budget, over
     * the passes the caller supplies; `dt` milliseconds of wall-clock time
     * pass after each one.
     */
    method Execute(inputs: seq<PassInput>) returns (passes: nat, thrown: bool)
      requires WellShaped(Views(), inputs) && TagsBoundHere(pollCommandArr)
      modifies this`autoTimer, this`defaultCommandArr, this`defaultCommandTimer, this`trace, ModesOf(Views())`lock, TagsOf(Views())`tlock, TagsOf(Views())`flock, TagsOf(Views())`pausedDefaultCommand
      ensures RunOutcome(W(pollCommandArr, thrown), passes) == Run(Framework, old(Views()), inputs, old(W(pollCommandArr, false)))
    {
      var cmds := pollCommandArr;
      ghost var cs := ViewsOf(cmds);
      passes, thrown := RunOn(cmds, inputs, cs, ModesOf(cs), TagsOf(cs));
      assert ViewsOf(cmds) == cs;
    }
  }
}
