/**
 * The pause-default tag (`PauseDefaultCommand`, legacy `c_PauseDefaultCommand`)
 * as a function of the tag's own fields and of the scheduler fields it
 * touches.
 *
 * Both revisions keep two one-shot latches, `tlock` (set by the first true
 * poll of a run) and `flock` (set by the first false poll of a run), and a
 * saved copy of the default slot. They differ in what the edges do:
 *   - the newer revision emits `end(false)` on the saved value when pausing,
 *     installs a placeholder `InstantAutoCommand`, and emits `initialize()`
 *     on the saved value when restoring; a null value there throws;
 *   - the legacy revision installs an empty array and emits nothing.
 */
module PauseSpec {
  import opened Behaviours
  import opened Timing

  datatype Revision = Framework | Legacy

  /** The tag object's fields. */
  datatype TagState = TagState(tlock: bool, flock: bool, paused: Slot)

  /** The scheduler's fields: default slot, both timers, and the event log. */
  datatype Sched = Sched(slot: Slot, autoTimer: Timer, defaultTimer: Timer, trace: seq<Event>)

  /** After one tag poll: the tag, the scheduler, and whether a NullPointerException escaped. */
  datatype TagOutcome = TagOutcome(tag: TagState, sched: Sched, thrown: bool)

  /**
   * Newer `PauseDefaultCommand.TruePoll`. A true poll always re-arms the
   * restore (`flock` clear) and never moves the auto timer. A latched tag
   * changes nothing else. An unlatched one saves the slot it replaces,
   * emits `end(false)` on it, installs the placeholder and stops the default
   * timer -- or throws, exactly when that slot is null, leaving the tag
   * unlatched.
   */
  function PauseTrue(t: TagState, s: Sched): (o: TagOutcome)
    ensures !o.tag.flock && o.sched.autoTimer == s.autoTimer
    ensures o.thrown <==> !t.tlock && s.slot == Null
    ensures o.tag.tlock <==> !o.thrown
    ensures t.tlock ==> o.sched == s && o.tag.paused == t.paused
    ensures !t.tlock && !o.thrown ==>
              && o.tag.paused == s.slot && o.sched.slot == Arr([Instant])
              && !o.sched.defaultTimer.running && o.sched.trace == s.trace + [End(s.slot.ids)]
  {
    if t.tlock then TagOutcome(t.(flock := false), s, false)
    else
      match s.slot
      case Null =>
        // pausedDefaultCommand = null; then null.end(false) throws before tlock is set
        TagOutcome(TagState(false, false, Null), s, true)
      case Arr(ids) =>
        TagOutcome(TagState(true, false, s.slot),
                   s.(slot := Arr([Instant]), defaultTimer := Stop(s.defaultTimer), trace := s.trace + [End(ids)]),
                   false)
  }

  /**
   * Newer `PauseDefaultCommand.FalsePoll`. A false poll always re-arms the
   * pause (`tlock` clear), keeps the saved value and never moves the auto
   * timer. A latched tag changes nothing else. An unlatched one puts the
   * saved value back in the slot -- null included -- and then emits
   * `initialize()` on it and restarts the default timer, or throws, exactly
   * when the saved value is null.
   */
  function PauseFalse(t: TagState, s: Sched): (o: TagOutcome)
    ensures !o.tag.tlock && o.tag.paused == t.paused && o.sched.autoTimer == s.autoTimer
    ensures o.thrown <==> !t.flock && t.paused == Null
    ensures o.tag.flock <==> !o.thrown
    ensures t.flock ==> o.sched == s
    ensures !t.flock ==> o.sched.slot == t.paused
    ensures !t.flock && !o.thrown ==>
              o.sched.defaultTimer.running && o.sched.trace == s.trace + [Initialize(t.paused.ids)]
  {
    if t.flock then TagOutcome(t.(tlock := false), s, false)
    else
      match t.paused
      case Null =>
        // setDefaultCommand(null) happens; then null.initialize() throws before flock is set
        TagOutcome(t.(tlock := false), s.(slot := Null), true)
      case Arr(ids) =>
        TagOutcome(TagState(false, true, t.paused),
                   s.(slot := t.paused, defaultTimer := Start(s.defaultTimer), trace := s.trace + [Initialize(ids)]),
                   false)
  }

  /**
   * Legacy `c_PauseDefaultCommand.TruePoll`: never throws and emits nothing;
   * afterwards the tag is latched on true. An unlatched tag saves the slot
   * it replaces (null included), installs the empty array and stops the
   * default timer; a latched one changes nothing else.
   */
  function LegacyPauseTrue(t: TagState, s: Sched): (o: TagOutcome)
    ensures !o.thrown && o.tag.tlock && !o.tag.flock
    ensures o.sched.trace == s.trace && o.sched.autoTimer == s.autoTimer
    ensures t.tlock ==> o.sched == s && o.tag.paused == t.paused
    ensures !t.tlock ==> o.tag.paused == s.slot && o.sched.slot == Arr([]) && !o.sched.defaultTimer.running
  {
    if t.tlock then TagOutcome(t.(flock := false), s, false)
    else TagOutcome(TagState(true, false, s.slot), s.(slot := Arr([]), defaultTimer := Stop(s.defaultTimer)), false)
  }

  /**
   * Legacy `c_PauseDefaultCommand.FalsePoll`: never throws and emits
   * nothing; afterwards the tag is latched on false and still holds its
   * saved array. An unlatched tag writes the saved array, null included,
   * back into the slot and restarts the default timer; a latched one
   * changes nothing else.
   */
  function LegacyPauseFalse(t: TagState, s: Sched): (o: TagOutcome)
    ensures !o.thrown && !o.tag.tlock && o.tag.flock && o.tag.paused == t.paused
    ensures o.sched.trace == s.trace && o.sched.autoTimer == s.autoTimer
    ensures t.flock ==> o.sched == s
    ensures !t.flock ==> o.sched.slot == t.paused && o.sched.defaultTimer.running
  {
    if t.flock then TagOutcome(t.(tlock := false), s, false)
    else TagOutcome(TagState(false, true, t.paused), s.(slot := t.paused, defaultTimer := Start(s.defaultTimer)), false)
  }

  /**
   * One tag poll on the branch chosen by the condition. A tag never touches
   * the auto timer and only ever appends to the event log.
   */
  function TagPoll(rev: Revision, t: TagState, s: Sched, cond: bool): (o: TagOutcome)
    ensures o.sched.autoTimer == s.autoTimer
    ensures s.trace <= o.sched.trace
    ensures forall k :: |s.trace| <= k < |o.sched.trace| ==> !o.sched.trace[k].Schedule?
    ensures rev == Legacy ==> !o.thrown && o.sched.trace == s.trace
  {
    match rev
    case Framework => if cond then PauseTrue(t, s) else PauseFalse(t, s)
    case Legacy => if cond then LegacyPauseTrue(t, s) else LegacyPauseFalse(t, s)
  }

  /** What the default slot holds while a pause is in effect: the placeholder, or the empty array. */
  function PausedDefaults(rev: Revision): seq<BehaviourId>
  {
    if rev == Framework then [Instant] else []
  }

  /**
   * While a pause is in effect the slot holds `PausedDefaults(rev)`: the
   * first true poll of a run installs it, saves what the slot held and
   * stops the default timer, in both revisions; it throws instead exactly
   * when the newer revision finds null in the slot.
   */
  lemma PauseInstallsPausedDefaults(rev: Revision, t: TagState, s: Sched)
    requires !t.tlock
    ensures var o := TagPoll(rev, t, s, true);
            && (o.thrown <==> rev == Framework && s.slot == Null)
            && (!o.thrown ==> && o.tag.tlock && o.tag.paused == s.slot
                              && o.sched.slot == Arr(PausedDefaults(rev)) && !o.sched.defaultTimer.running)
  {
  }

  /** Successive polls of one tag; an exception ends the sequence. */
  function TagPolls(rev: Revision, t: TagState, s: Sched, conds: seq<bool>): TagOutcome
    decreases |conds|
  {
    if conds == [] then TagOutcome(t, s, false)
    else
      var o := TagPoll(rev, t, s, conds[0]);
      if o.thrown then o else TagPolls(rev, o.tag, o.sched, conds[1..])
  }

  function Repeat(v: bool, n: nat): (r: seq<bool>)
    ensures |r| == n && forall k :: 0 <= k < n ==> r[k] == v
  {
    seq(n, _ => v)
  }

  /** After a poll that did not throw, polling again on the same branch changes nothing. */
  lemma PollIsIdempotent(rev: Revision, t: TagState, s: Sched, cond: bool)
    requires !TagPoll(rev, t, s, cond).thrown
    ensures var o := TagPoll(rev, t, s, cond);
            TagPoll(rev, o.tag, o.sched, cond) == o
  {
  }

  /**
   * One-shot latches: any number of polls on the same branch act exactly as
   * the first one does.
   */
  lemma {:induction false} RepeatedPollsActOnce(rev: Revision, t: TagState, s: Sched, cond: bool, n: nat)
    ensures TagPolls(rev, t, s, Repeat(cond, n + 1)) == TagPoll(rev, t, s, cond)
  {
    var o := TagPoll(rev, t, s, cond);
    assert Repeat(cond, n + 1)[1..] == Repeat(cond, n);
    if !o.thrown {
      PollIsIdempotent(rev, t, s, cond);
      PollsAfterLatchChangeNothing(rev, o, cond, n);
    }
  }

  lemma {:induction false} PollsAfterLatchChangeNothing(rev: Revision, o: TagOutcome, cond: bool, n: nat)
    requires !o.thrown
    requires TagPoll(rev, o.tag, o.sched, cond) == o
    ensures TagPolls(rev, o.tag, o.sched, Repeat(cond, n)) == o
    decreases n
  {
    if n > 0 {
      assert Repeat(cond, n)[1..] == Repeat(cond, n - 1);
      PollsAfterLatchChangeNothing(rev, o, cond, n - 1);
    }
  }

  /** Events a round trip emits on the default value `ids`. */
  function RoundTripEvents(rev: Revision, ids: seq<BehaviourId>): seq<Event>
  {
    if rev == Framework then [End(ids), Initialize(ids)] else []
  }

  /**
   * Round trip: a run of k >= 1 true polls followed by one false poll, with
   * nothing else writing the slot, puts back exactly the value the slot held
   * before the run, and leaves the default timer running again. The newer
   * revision emits `end(false)` then `initialize()` on that value; the
   * legacy revision emits nothing. (The newer revision throws instead when
   * the slot held null; see `PauseOnNullThrows`.)
   */
  lemma PauseRoundTrip(rev: Revision, t: TagState, s: Sched, k: nat)
    requires !t.tlock && k >= 1
    requires rev == Framework ==> s.slot.Arr?
    ensures var o := TagPolls(rev, t, s, Repeat(true, k) + [false]);
            && !o.thrown
            && o.sched.slot == s.slot
            && o.tag == TagState(false, true, s.slot)
            && o.sched.defaultTimer == Start(s.defaultTimer)
            && o.sched.autoTimer == s.autoTimer
            && o.sched.trace == s.trace + RoundTripEvents(rev, if s.slot.Arr? then s.slot.ids else [])
  {
    var conds := Repeat(true, k) + [false];
    var first := TagPoll(rev, t, s, true);
    assert !first.thrown && first.tag.tlock && !first.tag.flock;
    assert conds[1..] == Repeat(true, k - 1) + [false];
    LatchedTruePollsThenRestore(rev, first.tag, first.sched, k - 1);
  }

  lemma {:induction false} LatchedTruePollsThenRestore(rev: Revision, t: TagState, s: Sched, n: nat)
    requires t.tlock && !t.flock
    ensures TagPolls(rev, t, s, Repeat(true, n) + [false]) == TagPoll(rev, t, s, false)
    decreases n
  {
    var conds := Repeat(true, n) + [false];
    if n == 0 {
      assert conds == [false];
      assert conds[1..] == [];
    } else {
      assert TagPoll(rev, t, s, true) == TagOutcome(t, s, false);
      assert conds[1..] == Repeat(true, n - 1) + [false];
      LatchedTruePollsThenRestore(rev, t, s, n - 1);
    }
  }

  /**
   * Newer revision: pausing while the slot holds null saves null and throws
   * from `end(false)`, leaving both latches clear.
   */
  lemma PauseOnNullThrows(t: TagState, s: Sched)
    requires !t.tlock && s.slot == Null
    ensures PauseTrue(t, s) == TagOutcome(TagState(false, false, Null), s, true)
  {
  }

  /**
   * Newer revision quirk: `flock` starts false, so the first false poll after
   * construction restores the value captured by the constructor and emits
   * `initialize()` on it, although nothing was paused.
   */
  lemma RestoreWithoutPause(captured: seq<BehaviourId>, s: Sched)
    ensures var o := PauseFalse(TagState(false, false, Arr(captured)), s);
            && !o.thrown
            && o.sched.slot == Arr(captured)
            && o.sched.trace == s.trace + [Initialize(captured)]
            && o.sched.defaultTimer.running
  {
  }

  /**
   * Legacy quirk: the saved array starts null, so a false poll before any
   * true poll writes null into the scheduler's default slot.
   */
  lemma LegacyRestoreWithoutPauseWritesNull(s: Sched)
    ensures LegacyPauseFalse(TagState(false, false, Null), s).sched.slot == Null
  {
  }
}
