/**
 * Identities of the behaviours (commands) the scheduler hands to the outer
 * command framework, the default-command slot, and the events the scheduler
 * emits on them.
 *
 * A Java `AutoCommandBase` object is represented by its identity. The
 * placeholder `InstantAutoCommand` that a pause installs is the distinguished
 * identity `Instant`. The default slot holds a Java array reference that can
 * be null, so it is `Null` or an `Arr` of identities.
 */
module Behaviours {

  datatype BehaviourId = Instant | Routine(n: nat)

  /**
   * Identity of a `BooleanSupplier`. What a supplier reads is outside the
   * model: its value on each pass is an input.
   */
  type SupplierId = nat

  /** The scheduler's `defaultCommandArr` (and a tag's saved copy of it). */
  datatype Slot = Null | Arr(ids: seq<BehaviourId>)

  /**
   * Calls into the outer framework, recorded in order:
   * `schedule()` on one command, `end(false)` and `initialize()` on a whole
   * saved default value.
   */
  datatype Event =
    | Schedule(who: BehaviourId)
    | End(targets: seq<BehaviourId>)
    | Initialize(targets: seq<BehaviourId>)

  /** The events of `for (d : ids) d.schedule();`, in array order. */
  function Schedules(ids: seq<BehaviourId>): (r: seq<Event>)
    ensures |r| == |ids|
    ensures forall i :: 0 <= i < |ids| ==> r[i] == Schedule(ids[i])
  {
    if ids == [] then [] else [Schedule(ids[0])] + Schedules(ids[1..])
  }

  /** The `schedule()` events of a trace, in order. */
  function ScheduleEvents(es: seq<Event>): (r: seq<Event>)
    ensures |r| <= |es|
    ensures forall k :: 0 <= k < |r| ==> r[k].Schedule?
  {
    if es == [] then []
    else (if es[0].Schedule? then [es[0]] else []) + ScheduleEvents(es[1..])
  }

  lemma {:induction false} ScheduleEventsAppend(a: seq<Event>, b: seq<Event>)
    ensures ScheduleEvents(a + b) == ScheduleEvents(a) + ScheduleEvents(b)
    decreases |a|
  {
    if a != [] {
      assert (a + b)[0] == a[0] && (a + b)[1..] == a[1..] + b;
      ScheduleEventsAppend(a[1..], b);
    } else {
      assert a + b == b;
    }
  }

  /** A trace with no `schedule()` in it contributes none. */
  lemma {:induction false} NoScheduleEvents(es: seq<Event>)
    requires forall k :: 0 <= k < |es| ==> !es[k].Schedule?
    ensures ScheduleEvents(es) == []
    decreases |es|
  {
    if es != [] {
      NoScheduleEvents(es[1..]);
    }
  }

  /** `b` is `a` followed by `schedule()` events only. */
  predicate OnlySchedulesAfter(a: seq<Event>, b: seq<Event>)
  {
    a <= b && forall k :: |a| <= k < |b| ==> b[k].Schedule?
  }
}
