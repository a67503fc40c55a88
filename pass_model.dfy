/**
 * One pass of `AutoCommandScheduler.execute` and the budgeted loop around
 * it, as functions of an abstract world.
 *
 * The two revisions' `execute` bodies are the same code; they differ only in
 * the tag class they call, which `Revision` selects. Mode objects and tag
 * objects are keys of the world's maps, so two commands that share one mode
 * object (as every legacy command using `onTrue` does) share its latch.
 */
module PassModel {
  import opened Behaviours
  import opened Timing
  import opened OperationModes
  import opened PauseSpec

  /**
   * What a pass reads of one command: its identity, whether a condition was
   * ever declared (the field is null until then), its mode object (null is
   * possible in the legacy revision) and its tag list.
   */
  datatype CmdView<T> = CmdView(id: BehaviourId, declared: bool, mode: OperationMode?, tags: seq<T>)

  /** Every latch, every tag, the scheduler, and whether an exception escaped. */
  datatype World<T(==)> = World(locks: map<OperationMode, bool>, tags: map<T, TagState>, sched: Sched, thrown: bool)

  /** One pass's inputs: each command's condition value, then the milliseconds that pass. */
  datatype PassInput = PassInput(conds: seq<bool>, dt: nat)

  datatype RunOutcome<T(==)> = RunOutcome(world: World<T>, passes: nat)

  /** The same outcome, counted from `k` passes earlier. */
  function Later<T(==)>(o: RunOutcome<T>, k: nat): (r: RunOutcome<T>)
    ensures r.world == o.world && r.passes == o.passes + k
  {
    RunOutcome(o.world, o.passes + k)
  }

  predicate CoversCmd<T(==)>(c: CmdView<T>, locks: set<OperationMode>, tags: set<T>)
  {
    (c.mode != null ==> c.mode in locks) && forall t :: t in c.tags ==> t in tags
  }

  /** The world knows the latch of every mode and the state of every tag the commands use. */
  predicate Covers<T(==)>(cs: seq<CmdView<T>>, locks: set<OperationMode>, tags: set<T>)
  {
    forall i :: 0 <= i < |cs| ==> CoversCmd(cs[i], locks, tags)
  }

  /** The mode objects the commands use. */
  ghost function ModesOf<T>(cs: seq<CmdView<T>>): (r: set<OperationMode>)
    ensures forall i :: 0 <= i < |cs| && cs[i].mode != null ==> cs[i].mode in r
  {
    var modes := seq(|cs|, i requires 0 <= i < |cs| => cs[i].mode);
    assert forall i :: 0 <= i < |cs| ==> modes[i] == cs[i].mode;
    set m: OperationMode | m in modes
  }

  /** The tag objects the commands use. */
  ghost function TagsOf<T>(cs: seq<CmdView<T>>): (r: set<T>)
    ensures forall i, t :: 0 <= i < |cs| && t in cs[i].tags ==> t in r
  {
    set i, t | 0 <= i < |cs| && t in cs[i].tags :: t
  }

  /** The world changes only in the ways a pass can change it. */
  predicate Evolves<T(==)>(w: World<T>, r: World<T>)
  {
    && r.sched.autoTimer == w.sched.autoTimer
    && w.sched.trace <= r.sched.trace
    && (w.thrown ==> r == w)
  }

  /** The latch of `m`; a mode the world does not list reads as a new mode's clear latch. */
  function LockOf<T(==)>(w: World<T>, m: OperationMode): bool
  {
    if m in w.locks then w.locks[m] else false
  }

  /** The state of tag `t`; a tag the world does not list reads as a clear tag with nothing saved. */
  function TagOf<T(==)>(w: World<T>, t: T): TagState
  {
    if t in w.tags then w.tags[t] else TagState(false, false, Null)
  }

  /**
   * The condition is read (a never-declared condition throws), then exactly
   * one of `TruePoll` / `FalsePoll` is called on the mode (a null mode
   * throws), and `schedule()` is emitted iff that poll returned true.
   */
  function PollMode<T(==)>(c: CmdView<T>, v: bool, w: World<T>): (r: World<T>)
    ensures Evolves(w, r)
    ensures r.tags == w.tags && r.sched.slot == w.sched.slot && r.sched.defaultTimer == w.sched.defaultTimer
    ensures !w.thrown && c.declared && c.mode != null ==>
              && !r.thrown
              && r.locks == w.locks[c.mode := Step(c.mode.kind, LockOf(w, c.mode), v).lock]
              && r.sched.trace == w.sched.trace + (if Step(c.mode.kind, LockOf(w, c.mode), v).run then [Schedule(c.id)] else [])
  {
    if w.thrown then w
    else if !c.declared || c.mode == null then w.(thrown := true)
    else
      var d := Step(c.mode.kind, LockOf(w, c.mode), v);
      var trace := if d.run then w.sched.trace + [Schedule(c.id)] else w.sched.trace;
      w.(locks := w.locks[c.mode := d.lock], sched := w.sched.(trace := trace))
  }

  /** One tag polled on the branch chosen by the condition. */
  function TagStep<T(==)>(rev: Revision, tag: T, v: bool, w: World<T>): (r: World<T>)
    ensures Evolves(w, r) && r.locks == w.locks
  {
    if w.thrown then w
    else
      var o := TagPoll(rev, TagOf(w, tag), w.sched, v);
      w.(tags := w.tags[tag := o.tag], sched := o.sched, thrown := o.thrown)
  }

  /** A command's tags, polled in list order, all on the same branch. */
  function TagsStep<T(==)>(rev: Revision, tags: seq<T>, v: bool, w: World<T>): (r: World<T>)
    ensures Evolves(w, r) && r.locks == w.locks
    decreases |tags|
  {
    if tags == [] then w
    else TagsStep(rev, tags[1..], v, TagStep(rev, tags[0], v, w))
  }

  /**
   * One command: its mode, then its tags, whatever the mode decided. A
   * command without a condition or a mode throws before anything changes;
   * otherwise only its own latch moves, whatever its tags do.
   */
  function CommandStep<T(==)>(rev: Revision, c: CmdView<T>, v: bool, w: World<T>): (r: World<T>)
    ensures Evolves(w, r)
    ensures !w.thrown && (!c.declared || c.mode == null) ==> r == w.(thrown := true)
    ensures !w.thrown && c.declared && c.mode != null ==> r.locks == w.locks[c.mode := Step(c.mode.kind, LockOf(w, c.mode), v).lock]
  {
    TagsStep(rev, c.tags, v, PollMode(c, v, w))
  }

  /** The commands, in array order; `vs[i]` is the condition value of `cs[i]`. */
  function CommandsStep<T(==)>(rev: Revision, cs: seq<CmdView<T>>, vs: seq<bool>, w: World<T>): (r: World<T>)
    requires |vs| == |cs|
    ensures Evolves(w, r)
    decreases |cs|
  {
    if cs == [] then w
    else CommandsStep(rev, cs[1..], vs[1..], CommandStep(rev, cs[0], vs[0], w))
  }

  /** Unrolls the first of the commands a pass has left to poll. */
  lemma CommandsStepNext<T>(rev: Revision, cs: seq<CmdView<T>>, vs: seq<bool>, i: nat, w: World<T>)
    requires |vs| == |cs| && i < |cs|
    ensures CommandsStep(rev, cs[i..], vs[i..], w) == CommandsStep(rev, cs[i + 1..], vs[i + 1..], CommandStep(rev, cs[i], vs[i], w))
  {
    assert cs[i..][1..] == cs[i + 1..] && vs[i..][1..] == vs[i + 1..];
  }

  /** `for (d : defaultCommandArr) d.schedule();` -- a null slot throws. */
  function ScheduleDefaults<T(==)>(w: World<T>): (r: World<T>)
    ensures Evolves(w, r)
    ensures r.locks == w.locks && r.tags == w.tags && r.sched.slot == w.sched.slot
    ensures !w.thrown ==> (r.thrown <==> w.sched.slot == Null)
  {
    if w.thrown then w
    else
      match w.sched.slot
      case Null => w.(thrown := true)
      case Arr(ids) => w.(sched := w.sched.(trace := w.sched.trace + Schedules(ids)))
  }

  /** One iteration of the `while` loop in `execute`. */
  function Pass<T(==)>(rev: Revision, cs: seq<CmdView<T>>, vs: seq<bool>, w: World<T>): (r: World<T>)
    requires |vs| == |cs|
    ensures Evolves(w, r)
  {
    ScheduleDefaults(CommandsStep(rev, cs, vs, w))
  }

  /** Wall-clock time passes for both timers. */
  function Tick<T(==)>(w: World<T>, dt: nat): (r: World<T>)
  {
    w.(sched := w.sched.(autoTimer := Advance(w.sched.autoTimer, dt),
                         defaultTimer := Advance(w.sched.defaultTimer, dt)))
  }

  predicate WellShaped<T(==)>(cs: seq<CmdView<T>>, inputs: seq<PassInput>)
  {
    forall k :: 0 <= k < |inputs| ==> |inputs[k].conds| == |cs|
  }

  function Dts(inputs: seq<PassInput>): (r: seq<nat>)
    ensures |r| == |inputs|
    ensures forall k :: 0 <= k < |inputs| ==> r[k] == inputs[k].dt
  {
    seq(|inputs|, k requires 0 <= k < |inputs| => inputs[k].dt)
  }

  /**
   * `while (AutoTimer.get() < 15) { pass }`, over the passes the caller
   * supplies; an exception ends the loop. `passes` counts the passes started.
   */
  function Run<T(==)>(rev: Revision, cs: seq<CmdView<T>>, inputs: seq<PassInput>, w: World<T>): (r: RunOutcome<T>)
    requires WellShaped(cs, inputs)
    ensures r.passes <= |inputs|
    ensures w.sched.trace <= r.world.sched.trace
    ensures w.thrown ==> r == RunOutcome(w, 0)
    decreases |inputs|
  {
    if inputs == [] || w.thrown || Passed(w.sched.autoTimer, Budget) then RunOutcome(w, 0)
    else
      var p := Pass(rev, cs, inputs[0].conds, w);
      if p.thrown then RunOutcome(p, 1)
      else
        var rest := Run(rev, cs, inputs[1..], Tick(p, inputs[0].dt));
        RunOutcome(rest.world, rest.passes + 1)
  }

  /** The first pass of a run that starts one. */
  lemma RunUnfolds<T>(rev: Revision, cs: seq<CmdView<T>>, inputs: seq<PassInput>, w: World<T>)
    requires WellShaped(cs, inputs)
    requires inputs != [] && !w.thrown && !Passed(w.sched.autoTimer, Budget)
    ensures var p := Pass(rev, cs, inputs[0].conds, w);
            && WellShaped(cs, inputs[1..])
            && (p.thrown ==> Run(rev, cs, inputs, w) == RunOutcome(p, 1))
            && (!p.thrown ==> Run(rev, cs, inputs, w).passes == Run(rev, cs, inputs[1..], Tick(p, inputs[0].dt)).passes + 1
                              && Run(rev, cs, inputs, w).world == Run(rev, cs, inputs[1..], Tick(p, inputs[0].dt)).world)
  {
  }

  /**
   * Pass `n` of a run that reaches it: what is left of the run after that
   * pass (and the time after it) is the rest of the run.
   */
  lemma RunAdvances<T>(rev: Revision, cs: seq<CmdView<T>>, inputs: seq<PassInput>, n: nat, w: World<T>)
    requires WellShaped(cs, inputs) && n < |inputs|
    requires !w.thrown && !Passed(w.sched.autoTimer, Budget)
    ensures var p := Pass(rev, cs, inputs[n].conds, w);
            var next := if p.thrown then p else Tick(p, inputs[n].dt);
            Later(Run(rev, cs, inputs[n + 1..], next), 1) == Run(rev, cs, inputs[n..], w)
  {
    var rest := inputs[n..];
    assert rest[0] == inputs[n] && rest[1..] == inputs[n + 1..];
    RunUnfolds(rev, cs, rest, w);
    var p := Pass(rev, cs, inputs[n].conds, w);
    if p.thrown {
      RunStops(rev, cs, rest[1..], p);
    }
  }

  /** A run that starts no pass leaves the world as it is. */
  lemma RunStops<T>(rev: Revision, cs: seq<CmdView<T>>, inputs: seq<PassInput>, w: World<T>)
    requires WellShaped(cs, inputs)
    requires inputs == [] || w.thrown || Passed(w.sched.autoTimer, Budget)
    ensures Run(rev, cs, inputs, w) == RunOutcome(w, 0)
  {
  }

  // ---------------------------------------------------------------------
  // Properties of a pass
  // ---------------------------------------------------------------------

  /**
   * Defaults come last: a pass that does not throw schedules, after
   * everything the commands emitted, exactly the slot's contents as the
   * commands' tags left them in this same pass.
   */
  lemma DefaultsComeLast<T>(rev: Revision, cs: seq<CmdView<T>>, vs: seq<bool>, w: World<T>)
    requires |vs| == |cs|
    requires !Pass(rev, cs, vs, w).thrown
    ensures var c := CommandsStep(rev, cs, vs, w);
            && c.sched.slot.Arr?
            && Pass(rev, cs, vs, w).sched.trace == c.sched.trace + Schedules(c.sched.slot.ids)
            && Pass(rev, cs, vs, w).sched.slot == c.sched.slot
  {
  }

  /** `CommandsStep` over `a + b` polls `a`'s commands, then `b`'s. */
  lemma {:induction false} CommandsStepSplits<T>(rev: Revision, a: seq<CmdView<T>>, b: seq<CmdView<T>>, va: seq<bool>, vb: seq<bool>, w: World<T>)
    requires |va| == |a| && |vb| == |b|
    ensures CommandsStep(rev, a + b, va + vb, w) == CommandsStep(rev, b, vb, CommandsStep(rev, a, va, w))
    decreases |a|
  {
    if a == [] {
      assert a + b == b && va + vb == vb;
    } else {
      assert (a + b)[0] == a[0] && (va + vb)[0] == va[0];
      assert (a + b)[1..] == a[1..] + b && (va + vb)[1..] == va[1..] + vb;
      CommandsStepSplits(rev, a[1..], b, va[1..], vb, CommandStep(rev, a[0], va[0], w));
    }
  }

  /** A tag state that has already acted on branch `v`, and on that branch only. */
  predicate Latched(s: TagState, v: bool)
  {
    if v then s.tlock && !s.flock else s.flock && !s.tlock
  }

  /** Every tag of the commands has already acted on the branch its command's condition takes. */
  predicate TagsSettled<T(==)>(w: World<T>, cs: seq<CmdView<T>>, vs: seq<bool>)
    requires |vs| == |cs|
  {
    forall i, t :: 0 <= i < |cs| && t in cs[i].tags ==> Latched(TagOf(w, t), vs[i])
  }

  /** Polling tags that have already acted on the branch changes nothing. */
  lemma {:induction false} LatchedTagsAreIdle<T>(rev: Revision, tags: seq<T>, v: bool, w: World<T>)
    requires !w.thrown && forall t :: t in tags ==> Latched(TagOf(w, t), v)
    ensures TagsStep(rev, tags, v, w) == w
    decreases |tags|
  {
    if tags != [] {
      var t := tags[0];
      assert t in tags && Latched(TagOf(w, t), v);
      assert t in w.tags;
      assert w.tags[t := w.tags[t]] == w.tags;
      assert TagStep(rev, t, v, w) == w;
      LatchedTagsAreIdle(rev, tags[1..], v, w);
    }
  }

  /**
   * Commands whose tags have all already acted on their branch only poll
   * their modes: tags, slot and default timer stay as they are, and the
   * trace grows by `schedule()` events only.
   */
  lemma {:induction false} SettledCommandsOnlySchedule<T>(rev: Revision, cs: seq<CmdView<T>>, vs: seq<bool>, w: World<T>)
    requires |vs| == |cs| && !w.thrown
    requires forall i :: 0 <= i < |cs| ==> cs[i].declared && cs[i].mode != null
    requires TagsSettled(w, cs, vs)
    ensures var r := CommandsStep(rev, cs, vs, w);
            && !r.thrown && r.tags == w.tags && r.sched.slot == w.sched.slot
            && r.sched.defaultTimer == w.sched.defaultTimer
            && OnlySchedulesAfter(w.sched.trace, r.sched.trace)
    decreases |cs|
  {
    if cs != [] {
      var p := PollMode(cs[0], vs[0], w);
      forall t | t in cs[0].tags
        ensures Latched(TagOf(p, t), vs[0])
      {
        assert Latched(TagOf(w, t), vs[0]);
      }
      LatchedTagsAreIdle(rev, cs[0].tags, vs[0], p);
      assert CommandStep(rev, cs[0], vs[0], w) == p;
      forall i, t | 0 <= i < |cs[1..]| && t in cs[1..][i].tags
        ensures Latched(TagOf(p, t), vs[1..][i])
      {
        assert cs[1..][i] == cs[i + 1] && vs[1..][i] == vs[i + 1];
        assert Latched(TagOf(w, t), vs[i + 1]);
      }
      SettledCommandsOnlySchedule(rev, cs[1..], vs[1..], p);
    }
  }

  /** A pass over `pre + [c] + post`: `pre`'s commands, then `c`, then `post`'s commands. */
  lemma CommandsStepAround<T>(rev: Revision, pre: seq<CmdView<T>>, c: CmdView<T>, post: seq<CmdView<T>>,
                              vpre: seq<bool>, v: bool, vpost: seq<bool>, w: World<T>)
    requires |vpre| == |pre| && |vpost| == |post|
    ensures CommandsStep(rev, pre + [c] + post, vpre + [v] + vpost, w)
            == CommandsStep(rev, post, vpost, CommandStep(rev, c, v, CommandsStep(rev, pre, vpre, w)))
  {
    var w0 := CommandsStep(rev, pre, vpre, w);
    CommandsStepSplits(rev, pre, [c], vpre, [v], w);
    assert [c][1..] == [] && [v][1..] == [];
    assert CommandsStep(rev, [c], [v], w0) == CommandStep(rev, c, v, w0);
    CommandsStepSplits(rev, pre + [c], post, vpre + [v], vpost, w);
  }

  /**
   * A command whose only tag `t` has not yet acted on true, polled true:
   * its own `schedule()` if its mode runs, then the pause, which leaves
   * `PausedDefaults(rev)` in the slot and the default timer stopped.
   */
  lemma PausingCommand<T>(rev: Revision, c: CmdView<T>, t: T, w: World<T>)
    requires c.declared && c.mode != null && c.tags == [t]
    requires !w.thrown && !TagOf(w, t).tlock && (rev == Framework ==> w.sched.slot.Arr?)
    ensures var m := CommandStep(rev, c, true, w);
            && !m.thrown && m.sched.slot == Arr(PausedDefaults(rev)) && !m.sched.defaultTimer.running
            && m.sched.trace == w.sched.trace
                                + (if Step(c.mode.kind, LockOf(w, c.mode), true).run then [Schedule(c.id)] else [])
                                + (if rev == Framework then [End(w.sched.slot.ids)] else [])
  {
    var p := PollMode(c, true, w);
    assert [t][0] == t && [t][1..] == [];
    assert TagsStep(rev, [t], true, p) == TagsStep(rev, [], true, TagStep(rev, t, true, p));
  }

  /** A command whose only tag `t` is fresh, polled false in the legacy revision: null lands in the slot. */
  lemma LegacyRestoringCommand<T>(c: CmdView<T>, t: T, w: World<T>)
    requires c.declared && c.mode != null && c.tags == [t]
    requires !w.thrown && TagOf(w, t) == TagState(false, false, Null)
    ensures var m := CommandStep(Legacy, c, false, w);
            !m.thrown && m.sched.slot == Null
  {
    var p := PollMode(c, false, w);
    assert [t][0] == t && [t][1..] == [];
    assert TagsStep(Legacy, [t], false, p) == TagsStep(Legacy, [], false, TagStep(Legacy, t, false, p));
  }

  /**
   * A pause takes effect in the pass that triggers it. Command `c` sits
   * after `pre` and before `post` in the array; its tag `t` has not yet
   * acted on true, and every tag of the later commands has already acted on
   * its own branch once `c` is done. Then `c`'s part of the trace is its
   * own `schedule()` if its mode said run and then (newer revision)
   * `end(false)` on the default value it paused; the later commands add
   * only `schedule()` events; and the defaults the pass schedules are only
   * the placeholder (newer revision) or nothing (legacy revision), with the
   * default timer stopped.
   */
  lemma PauseTakesEffectInSamePass<T>(rev: Revision, pre: seq<CmdView<T>>, c: CmdView<T>, post: seq<CmdView<T>>,
                                      vpre: seq<bool>, vpost: seq<bool>, t: T, w: World<T>)
    requires |vpre| == |pre| && |vpost| == |post|
    requires c.declared && c.mode != null && c.tags == [t]
    requires forall i :: 0 <= i < |post| ==> post[i].declared && post[i].mode != null
    requires !CommandsStep(rev, pre, vpre, w).thrown
    requires !TagOf(CommandsStep(rev, pre, vpre, w), t).tlock
    requires rev == Framework ==> CommandsStep(rev, pre, vpre, w).sched.slot.Arr?
    requires TagsSettled(CommandStep(rev, c, true, CommandsStep(rev, pre, vpre, w)), post, vpost)
    ensures var w0 := CommandsStep(rev, pre, vpre, w);
            CommandStep(rev, c, true, w0).sched.trace
            == w0.sched.trace
               + (if Step(c.mode.kind, LockOf(w0, c.mode), true).run then [Schedule(c.id)] else [])
               + (if rev == Framework then [End(w0.sched.slot.ids)] else [])
    ensures var w0 := CommandsStep(rev, pre, vpre, w);
            OnlySchedulesAfter(CommandStep(rev, c, true, w0).sched.trace,
                               CommandsStep(rev, pre + [c] + post, vpre + [true] + vpost, w).sched.trace)
    ensures var r := Pass(rev, pre + [c] + post, vpre + [true] + vpost, w);
            && !r.thrown
            && r.sched.slot == Arr(PausedDefaults(rev))
            && !r.sched.defaultTimer.running
            && r.sched.trace == CommandsStep(rev, pre + [c] + post, vpre + [true] + vpost, w).sched.trace
                                + Schedules(PausedDefaults(rev))
  {
    var w0 := CommandsStep(rev, pre, vpre, w);
    var m := CommandStep(rev, c, true, w0);
    PausingCommand(rev, c, t, w0);
    CommandsStepAround(rev, pre, c, post, vpre, true, vpost, w);
    SettledCommandsOnlySchedule(rev, post, vpost, m);
  }

  /**
   * Legacy null restore, seen from the scheduler: command `c` sits after
   * `pre` and before `post`; its fresh pause tag, polled false before it
   * ever paused, writes null into the default slot. When every tag of the
   * later commands has already acted on its own branch, nothing puts a
   * value back, so the command loop ends without an exception, the slot
   * null, and the same pass throws when it goes on to schedule the defaults.
   */
  lemma LegacyRestoreBeforePauseThrows<T>(pre: seq<CmdView<T>>, c: CmdView<T>, post: seq<CmdView<T>>,
                                          vpre: seq<bool>, vpost: seq<bool>, t: T, w: World<T>)
    requires |vpre| == |pre| && |vpost| == |post|
    requires c.declared && c.mode != null && c.tags == [t]
    requires forall i :: 0 <= i < |post| ==> post[i].declared && post[i].mode != null
    requires !CommandsStep(Legacy, pre, vpre, w).thrown
    requires TagOf(CommandsStep(Legacy, pre, vpre, w), t) == TagState(false, false, Null)
    requires TagsSettled(CommandStep(Legacy, c, false, CommandsStep(Legacy, pre, vpre, w)), post, vpost)
    ensures var r := CommandsStep(Legacy, pre + [c] + post, vpre + [false] + vpost, w);
            !r.thrown && r.sched.slot == Null
    ensures Pass(Legacy, pre + [c] + post, vpre + [false] + vpost, w).thrown
  {
    var w0 := CommandsStep(Legacy, pre, vpre, w);
    var m := CommandStep(Legacy, c, false, w0);
    LegacyRestoringCommand(c, t, w0);
    CommandsStepAround(Legacy, pre, c, post, vpre, false, vpost, w);
    SettledCommandsOnlySchedule(Legacy, post, vpost, m);
  }

  /** The result of tags depends only on the tags, the slot, the default timer and `thrown`. */
  predicate SameTagInputs<T(==)>(a: World<T>, b: World<T>)
  {
    a.tags == b.tags && a.sched.slot == b.sched.slot && a.sched.defaultTimer == b.sched.defaultTimer && a.thrown == b.thrown
  }

  lemma {:induction false} TagsStepIgnoresLocksAndTrace<T>(rev: Revision, tags: seq<T>, v: bool, a: World<T>, b: World<T>)
    requires SameTagInputs(a, b)
    ensures SameTagInputs(TagsStep(rev, tags, v, a), TagsStep(rev, tags, v, b))
    decreases |tags|
  {
    if tags != [] {
      var a1 := TagStep(rev, tags[0], v, a);
      var b1 := TagStep(rev, tags[0], v, b);
      assert SameTagInputs(a1, b1);
      TagsStepIgnoresLocksAndTrace(rev, tags[1..], v, a1, b1);
    }
  }

  /**
   * Tags act whatever the mode decided: a command's tags leave the same tags,
   * slot and default timer as they would if the mode had not been polled.
   */
  lemma TagsIgnoreModeDecision<T>(rev: Revision, c: CmdView<T>, v: bool, w: World<T>)
    requires !w.thrown && c.declared && c.mode != null
    ensures SameTagInputs(CommandStep(rev, c, v, w), TagsStep(rev, c.tags, v, w))
  {
    TagsStepIgnoresLocksAndTrace(rev, c.tags, v, PollMode(c, v, w), w);
  }

  /** Tags never call `schedule()`: the only events they emit are `end(false)` and `initialize()`. */
  lemma {:induction false} TagsStepSchedulesNothing<T>(rev: Revision, tags: seq<T>, v: bool, w: World<T>)
    ensures ScheduleEvents(TagsStep(rev, tags, v, w).sched.trace) == ScheduleEvents(w.sched.trace)
    decreases |tags|
  {
    if tags != [] {
      var w1 := TagStep(rev, tags[0], v, w);
      if !w.thrown {
        var added := w1.sched.trace[|w.sched.trace|..];
        assert w1.sched.trace == w.sched.trace + added;
        NoScheduleEvents(added);
        ScheduleEventsAppend(w.sched.trace, added);
      }
      TagsStepSchedulesNothing(rev, tags[1..], v, w1);
    }
  }

  /**
   * One command with a declared condition and a mode: only its own latch
   * moves, by the branch's transition, and exactly one `schedule()` is
   * emitted if that poll ran and none otherwise, whatever its tags do.
   */
  lemma CommandStepSchedulesOnPoll<T>(rev: Revision, c: CmdView<T>, v: bool, w: World<T>)
    requires !w.thrown && c.declared && c.mode != null
    ensures var d := Step(c.mode.kind, LockOf(w, c.mode), v);
            var r := CommandStep(rev, c, v, w);
            && r.locks == w.locks[c.mode := d.lock]
            && ScheduleEvents(r.sched.trace) == ScheduleEvents(w.sched.trace) + (if d.run then [Schedule(c.id)] else [])
  {
    var d := Step(c.mode.kind, LockOf(w, c.mode), v);
    var head := if d.run then [Schedule(c.id)] else [];
    var p := PollMode(c, v, w);
    assert p.sched.trace == w.sched.trace + head;
    TagsStepSchedulesNothing(rev, c.tags, v, p);
    ScheduleEventsAppend(w.sched.trace, head);
  }

  /** Commands with declared conditions and mode objects of their own. */
  predicate DistinctModes<T(==)>(cs: seq<CmdView<T>>)
  {
    && (forall i :: 0 <= i < |cs| ==> cs[i].declared && cs[i].mode != null)
    && (forall i, j :: 0 <= i < j < |cs| ==> cs[i].mode != cs[j].mode)
  }

  /** The `schedule()` events of commands whose modes are polled from the latches of `w`, in array order. */
  function Fired<T(==)>(cs: seq<CmdView<T>>, vs: seq<bool>, w: World<T>): seq<Event>
    requires |vs| == |cs| && forall i :: 0 <= i < |cs| ==> cs[i].mode != null
    decreases |cs|
  {
    if cs == [] then []
    else
      (if Step(cs[0].mode.kind, LockOf(w, cs[0].mode), vs[0]).run then [Schedule(cs[0].id)] else [])
      + Fired(cs[1..], vs[1..], w)
  }

  /**
   * Mode polling in a pass: when every command has its own mode object and
   * the command loop does not throw, each mode is polled exactly once, on
   * the branch of its own condition, from the latch it had before the pass;
   * the loop's `schedule()` events are exactly those of the commands whose
   * poll returned true, in array order (tags add none); and every other
   * latch is unchanged.
   */
  lemma EachModePolledOnce<T>(rev: Revision, cs: seq<CmdView<T>>, vs: seq<bool>, w: World<T>)
    requires |vs| == |cs| && DistinctModes(cs)
    requires !CommandsStep(rev, cs, vs, w).thrown
    ensures var r := CommandsStep(rev, cs, vs, w);
            && ScheduleEvents(r.sched.trace) == ScheduleEvents(w.sched.trace) + Fired(cs, vs, w)
            && (forall i :: 0 <= i < |cs| ==> LockOf(r, cs[i].mode) == Step(cs[i].mode.kind, LockOf(w, cs[i].mode), vs[i]).lock)
            && (forall m :: (forall i :: 0 <= i < |cs| ==> cs[i].mode != m) ==> LockOf(r, m) == LockOf(w, m))
  {
    DistinctModesEmitFired(rev, cs, vs, w);
    forall i | 0 <= i < |cs|
      ensures LockOf(CommandsStep(rev, cs, vs, w), cs[i].mode) == Step(cs[i].mode.kind, LockOf(w, cs[i].mode), vs[i]).lock
    {
      DistinctModesStepLatch(rev, cs, vs, w, i);
    }
    forall m | (forall i :: 0 <= i < |cs| ==> cs[i].mode != m)
      ensures LockOf(CommandsStep(rev, cs, vs, w), m) == LockOf(w, m)
    {
      DistinctModesKeepOtherLatch(rev, cs, vs, w, m);
    }
  }

  /** The first command of a loop that does not throw leaves a world that has not thrown. */
  lemma FirstCommandDoesNotThrow<T>(rev: Revision, cs: seq<CmdView<T>>, vs: seq<bool>, w: World<T>)
    requires |vs| == |cs| && cs != [] && !CommandsStep(rev, cs, vs, w).thrown
    ensures var w1 := CommandStep(rev, cs[0], vs[0], w);
            !w.thrown && !w1.thrown && CommandsStep(rev, cs, vs, w) == CommandsStep(rev, cs[1..], vs[1..], w1)
  {
  }

  /** Polling the first command does not change what the others fire: their modes are other objects. */
  lemma RestFiresAsBefore<T>(rev: Revision, cs: seq<CmdView<T>>, vs: seq<bool>, w: World<T>)
    requires |vs| == |cs| && cs != [] && DistinctModes(cs) && !w.thrown
    ensures Fired(cs[1..], vs[1..], CommandStep(rev, cs[0], vs[0], w)) == Fired(cs[1..], vs[1..], w)
  {
    var tail := cs[1..];
    var w1 := CommandStep(rev, cs[0], vs[0], w);
    forall k | 0 <= k < |tail|
      ensures tail[k].mode != null && LockOf(w, tail[k].mode) == LockOf(w1, tail[k].mode)
    {
      assert tail[k] == cs[k + 1] && cs[0].mode != cs[k + 1].mode;
      LockAfterCommand(rev, cs[0], vs[0], w, tail[k].mode);
    }
    FiredIgnoresOtherLocks(tail, vs[1..], w, w1);
  }

  lemma {:induction false} DistinctModesEmitFired<T>(rev: Revision, cs: seq<CmdView<T>>, vs: seq<bool>, w: World<T>)
    requires |vs| == |cs| && DistinctModes(cs) && !CommandsStep(rev, cs, vs, w).thrown
    ensures ScheduleEvents(CommandsStep(rev, cs, vs, w).sched.trace) == ScheduleEvents(w.sched.trace) + Fired(cs, vs, w)
    decreases |cs|
  {
    if cs != [] {
      var c, tail := cs[0], cs[1..];
      FirstCommandDoesNotThrow(rev, cs, vs, w);
      var w1 := CommandStep(rev, c, vs[0], w);
      CommandStepSchedulesOnPoll(rev, c, vs[0], w);
      assert DistinctModes(tail);
      DistinctModesEmitFired(rev, tail, vs[1..], w1);
      RestFiresAsBefore(rev, cs, vs, w);
      var head := if Step(c.mode.kind, LockOf(w, c.mode), vs[0]).run then [Schedule(c.id)] else [];
      var rest := Fired(tail, vs[1..], w);
      assert Fired(cs, vs, w) == head + rest;
      AppendAssociates(ScheduleEvents(w.sched.trace), head, rest);
    }
  }

  lemma {:induction false} DistinctModesKeepOtherLatch<T>(rev: Revision, cs: seq<CmdView<T>>, vs: seq<bool>, w: World<T>, m: OperationMode)
    requires |vs| == |cs| && DistinctModes(cs) && !CommandsStep(rev, cs, vs, w).thrown
    requires forall i :: 0 <= i < |cs| ==> cs[i].mode != m
    ensures LockOf(CommandsStep(rev, cs, vs, w), m) == LockOf(w, m)
    decreases |cs|
  {
    if cs != [] {
      FirstCommandDoesNotThrow(rev, cs, vs, w);
      assert DistinctModes(cs[1..]) && cs[0].mode != m;
      DistinctModesKeepOtherLatch(rev, cs[1..], vs[1..], CommandStep(rev, cs[0], vs[0], w), m);
      LockAfterCommand(rev, cs[0], vs[0], w, m);
    }
  }

  /** The latch of `m` after one command with a condition and a mode. */
  lemma LockAfterCommand<T>(rev: Revision, c: CmdView<T>, v: bool, w: World<T>, m: OperationMode)
    requires !w.thrown && c.declared && c.mode != null
    ensures LockOf(CommandStep(rev, c, v, w), m) == if m == c.mode then Step(c.mode.kind, LockOf(w, c.mode), v).lock else LockOf(w, m)
  {
  }

  lemma {:induction false} DistinctModesStepLatch<T>(rev: Revision, cs: seq<CmdView<T>>, vs: seq<bool>, w: World<T>, i: nat)
    requires |vs| == |cs| && DistinctModes(cs) && !CommandsStep(rev, cs, vs, w).thrown && i < |cs|
    ensures LockOf(CommandsStep(rev, cs, vs, w), cs[i].mode) == Step(cs[i].mode.kind, LockOf(w, cs[i].mode), vs[i]).lock
    decreases |cs|
  {
    var c, tail := cs[0], cs[1..];
    FirstCommandDoesNotThrow(rev, cs, vs, w);
    var w1 := CommandStep(rev, c, vs[0], w);
    assert DistinctModes(tail);
    if i == 0 {
      forall j | 0 <= j < |tail|
        ensures tail[j].mode != c.mode
      {
        assert tail[j] == cs[j + 1];
      }
      DistinctModesKeepOtherLatch(rev, tail, vs[1..], w1, c.mode);
      LockAfterCommand(rev, c, vs[0], w, c.mode);
    } else {
      assert tail[i - 1] == cs[i] && c.mode != cs[i].mode;
      DistinctModesStepLatch(rev, tail, vs[1..], w1, i - 1);
      LockAfterCommand(rev, c, vs[0], w, cs[i].mode);
    }
  }

  lemma AppendAssociates<E>(a: seq<E>, b: seq<E>, c: seq<E>)
    ensures (a + b) + c == a + (b + c)
  {
  }

  lemma {:induction false} FiredIgnoresOtherLocks<T>(cs: seq<CmdView<T>>, vs: seq<bool>, a: World<T>, b: World<T>)
    requires |vs| == |cs|
    requires forall i :: 0 <= i < |cs| ==> cs[i].mode != null && LockOf(a, cs[i].mode) == LockOf(b, cs[i].mode)
    ensures Fired(cs, vs, a) == Fired(cs, vs, b)
    decreases |cs|
  {
    if cs != [] {
      FiredIgnoresOtherLocks(cs[1..], vs[1..], a, b);
    }
  }

  /**
   * Legacy shared latch: two commands that use the same `OnTrue` mode object
   * and whose conditions are both true get one `schedule()` between them --
   * polling the latch for the first command clears the decision for the
   * second.
   */
  lemma SharedEdgeModeFiresOnce<T>(rev: Revision, c0: CmdView<T>, c1: CmdView<T>, w: World<T>)
    requires c0.mode != null && c0.mode == c1.mode && c0.mode.kind == OnTrue
    requires c0.declared && c1.declared && c0.tags == [] && c1.tags == []
    requires c0.mode in w.locks && !w.locks[c0.mode] && !w.thrown
    ensures CommandsStep(rev, [c0, c1], [true, true], w).sched.trace == w.sched.trace + [Schedule(c0.id)]
  {
    var w1 := CommandStep(rev, c0, true, w);
    assert [c0, c1][1..] == [c1];
    assert CommandsStep(rev, [c1], [true], w1) == CommandStep(rev, c1, true, w1);
  }

  /** With a mode object each, the same two commands are both scheduled. */
  lemma SeparateEdgeModesFireEach<T>(rev: Revision, c0: CmdView<T>, c1: CmdView<T>, w: World<T>)
    requires c0.mode != null && c1.mode != null && c0.mode != c1.mode
    requires c0.mode.kind == OnTrue && c1.mode.kind == OnTrue
    requires c0.declared && c1.declared && c0.tags == [] && c1.tags == []
    requires c0.mode in w.locks && c1.mode in w.locks && !w.locks[c0.mode] && !w.locks[c1.mode] && !w.thrown
    ensures CommandsStep(rev, [c0, c1], [true, true], w).sched.trace == w.sched.trace + [Schedule(c0.id), Schedule(c1.id)]
  {
    var w1 := CommandStep(rev, c0, true, w);
    assert [c0, c1][1..] == [c1];
    assert CommandsStep(rev, [c1], [true], w1) == CommandStep(rev, c1, true, w1);
  }

  // ---------------------------------------------------------------------
  // Properties of the loop
  // ---------------------------------------------------------------------

  /**
   * Budget: the loop starts exactly the passes the auto timer allows
   * (`PassesRun`), unless an exception ends it first; passes never touch the
   * auto timer, so only the time that passes between them moves it.
   */
  lemma {:induction false} RunFollowsAutoTimer<T>(rev: Revision, cs: seq<CmdView<T>>, inputs: seq<PassInput>, w: World<T>)
    requires WellShaped(cs, inputs) && !w.thrown
    ensures var r := Run(rev, cs, inputs, w);
            !r.world.thrown ==> r.passes == PassesRun(w.sched.autoTimer, Dts(inputs))
    ensures Passed(w.sched.autoTimer, Budget) ==> Run(rev, cs, inputs, w) == RunOutcome(w, 0)
    decreases |inputs|
  {
    if inputs != [] && !Passed(w.sched.autoTimer, Budget) {
      var p := Pass(rev, cs, inputs[0].conds, w);
      if !p.thrown {
        var next := Tick(p, inputs[0].dt);
        assert WellShaped(cs, inputs[1..]);
        RunFollowsAutoTimer(rev, cs, inputs[1..], next);
        assert Dts(inputs)[1..] == Dts(inputs[1..]);
      }
    }
  }

  /** Every command that carries a tag reads its condition as true on every supplied pass. */
  predicate TaggedStayTrue<T(==)>(cs: seq<CmdView<T>>, inputs: seq<PassInput>)
    requires WellShaped(cs, inputs)
  {
    forall k, i :: 0 <= k < |inputs| && 0 <= i < |cs| && cs[i].tags != [] ==> inputs[k].conds[i]
  }

  lemma {:induction false} TrueTagsKeepStoppedTimer<T>(rev: Revision, tags: seq<T>, w: World<T>)
    requires !w.sched.defaultTimer.running
    ensures TagsStep(rev, tags, true, w).sched.defaultTimer == w.sched.defaultTimer
    decreases |tags|
  {
    if tags != [] {
      var w1 := TagStep(rev, tags[0], true, w);
      assert w1.sched.defaultTimer == w.sched.defaultTimer;
      TrueTagsKeepStoppedTimer(rev, tags[1..], w1);
    }
  }

  lemma {:induction false} CommandsKeepStoppedTimer<T>(rev: Revision, cs: seq<CmdView<T>>, vs: seq<bool>, w: World<T>)
    requires |vs| == |cs| && !w.sched.defaultTimer.running
    requires forall i :: 0 <= i < |cs| && cs[i].tags != [] ==> vs[i]
    ensures CommandsStep(rev, cs, vs, w).sched.defaultTimer == w.sched.defaultTimer
    decreases |cs|
  {
    if cs != [] {
      var p := PollMode(cs[0], vs[0], w);
      if cs[0].tags != [] {
        TrueTagsKeepStoppedTimer(rev, cs[0].tags, p);
      }
      CommandsKeepStoppedTimer(rev, cs[1..], vs[1..], CommandStep(rev, cs[0], vs[0], w));
    }
  }

  /**
   * A paused default timer stays paused: while every command that carries a
   * tag keeps reading true, no tag restarts the default timer, so a run
   * that starts with it stopped ends with it stopped at the same reading,
   * however much time passes between passes.
   */
  lemma {:induction false} PausedDefaultTimerHolds<T>(rev: Revision, cs: seq<CmdView<T>>, inputs: seq<PassInput>, w: World<T>)
    requires WellShaped(cs, inputs) && TaggedStayTrue(cs, inputs) && !w.sched.defaultTimer.running
    ensures Run(rev, cs, inputs, w).world.sched.defaultTimer == w.sched.defaultTimer
    decreases |inputs|
  {
    if inputs != [] && !w.thrown && !Passed(w.sched.autoTimer, Budget) {
      CommandsKeepStoppedTimer(rev, cs, inputs[0].conds, w);
      var p := Pass(rev, cs, inputs[0].conds, w);
      if !p.thrown {
        assert WellShaped(cs, inputs[1..]);
        assert forall k :: 0 <= k < |inputs[1..]| ==> inputs[1..][k] == inputs[k + 1];
        PausedDefaultTimerHolds(rev, cs, inputs[1..], Tick(p, inputs[0].dt));
      }
    }
  }
}
