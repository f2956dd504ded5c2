/**
 * Pure model of the screen-state-driven I/O-scheduler switcher of
 * block/iosched_switcher.c: the belief / saved-name / active-elevator state
 * that change_elevator works on, the set of pending delayed work items that
 * the framebuffer notifier edits, and the result codes of the one-time
 * registration. The classes in module IoschedSwitcher are proved against
 * these functions.
 */
module Switcher {

  datatype Option<+T> = None | Some(value: T)

  /** Name of the idle elevator (NOOP_IOSCHED). */
  const NOOP: string := "noop"

  /** Delay before either work item runs (RESTORE_DELAY_MS); timers are not modelled. */
  const RESTORE_DELAY_MS: nat := 5000

  // Kernel constants the file uses, with their Linux values
  // (errno, notifier and framebuffer headers are not part of this model).
  const EINVAL: int := 22
  const ENOMEM: int := 12
  const NOTIFY_OK: int := 0x0001
  const FB_EARLY_EVENT_BLANK: int := 0x10
  const FB_BLANK_UNBLANK: int := 0
  const FB_BLANK_POWERDOWN: int := 4

  /**
   * What change_elevator reads and writes: the conf's belief `usingNoop`,
   * its saved elevator name `prevE`, and the name of the elevator that is
   * active on the conf's request queue.
   */
  datatype SchedState = SchedState(usingNoop: bool, prevE: string, active: string)

  /** A conf just returned by kzalloc (belief false, empty saved name) over a queue running `active`. */
  function InitialSched(active: string): SchedState
  {
    SchedState(false, "", active)
  }

  /**
   * The name change_elevator(c, useNoop) passes to elevator_change, or None
   * when it makes no call at all.
   */
  function Request(s: SchedState, useNoop: bool): (r: Option<string>)
    // no call when the belief already matches the request
    ensures s.usingNoop == useNoop ==> r == None
    // otherwise a call exactly when the active elevator is on the other side of noop
    ensures s.usingNoop != useNoop ==> (r.Some? <==> (useNoop <==> s.active != NOOP))
    // going to sleep asks for noop, coming back asks for the saved name
    ensures r.Some? ==> r.value == (if useNoop then NOOP else s.prevE)
  {
    if s.usingNoop == useNoop then None
    else if useNoop && s.active != NOOP then Some(NOOP)
    else if !useNoop && s.active == NOOP then Some(s.prevE)
    else None
  }

  /** The names change_elevator(c, useNoop) passes to elevator_change, in call order. */
  function Calls(s: SchedState, useNoop: bool): seq<string>
  {
    match Request(s, useNoop)
    case Some(name) => [name]
    case None => []
  }

  /** elevator_change on the queue: the block layer installs `name` when it accepts it. */
  function AfterElevatorChange(s: SchedState, name: string, accepted: bool): SchedState
  {
    if accepted then s.(active := name) else s
  }

  /**
   * change_elevator(c, useNoop), where `accepted` is whether the block layer
   * accepts the elevator_change call it makes (if it makes one); the source
   * ignores that call's result.
   */
  function ChangeElevator(s: SchedState, useNoop: bool, accepted: bool): (t: SchedState)
    // a request matching the belief changes nothing
    ensures s.usingNoop == useNoop ==> t == s
    // the belief always ends up as requested, whatever the block layer did
    ensures t.usingNoop == useNoop
    // the old name is saved only when a switch to noop is actually requested
    ensures t.prevE == (if useNoop && Request(s, useNoop).Some? then s.active else s.prevE)
    // the active elevator moves only to an accepted request
    ensures t.active == (if accepted && Request(s, useNoop).Some? then Request(s, useNoop).value else s.active)
  {
    if s.usingNoop == useNoop then s
    else
      var name := s.active;
      var s1 := s.(usingNoop := useNoop);
      if useNoop then
        (if name != NOOP then AfterElevatorChange(s1.(prevE := name), NOOP, accepted) else s1)
      else
        (if name == NOOP then AfterElevatorChange(s1, s.prevE, accepted) else s1)
  }

  /** A second request for the same side makes no elevator_change call and changes nothing. */
  lemma SecondChangeIsNoop(s: SchedState, useNoop: bool, a1: bool, a2: bool)
    ensures Request(ChangeElevator(s, useNoop, a1), useNoop) == None
    ensures ChangeElevator(ChangeElevator(s, useNoop, a1), useNoop, a2) == ChangeElevator(s, useNoop, a1)
  {
  }

  /**
   * Going to noop and back, with both changes accepted, restores the
   * elevator that was active, which is also left saved in prevE.
   */
  lemma RoundTrip(s: SchedState)
    requires !s.usingNoop && s.active != NOOP
    ensures Request(s, true) == Some(NOOP)
    ensures Request(ChangeElevator(s, true, true), false) == Some(s.active)
    ensures ChangeElevator(ChangeElevator(s, true, true), false, true) == s.(prevE := s.active)
  {
  }

  /** The concrete round trip: a queue running "deadline" gets "deadline" back. */
  lemma DeadlineRoundTrip()
    ensures ChangeElevator(ChangeElevator(InitialSched("deadline"), true, true), false, true).active == "deadline"
  {
    RoundTrip(InitialSched("deadline"));
  }

  /** Switching to noop on a queue already running noop neither calls elevator_change nor overwrites prevE. */
  lemma AlreadyNoopKeepsPrev(s: SchedState, accepted: bool)
    requires !s.usingNoop && s.active == NOOP
    ensures Request(s, true) == None
    ensures ChangeElevator(s, true, accepted) == s.(usingNoop := true)
  {
  }

  /**
   * The belief is updated before elevator_change is known to succeed: when
   * the switch to noop is refused the conf believes noop is active while it
   * is not, and the next switch back only resets the belief, with no call.
   */
  lemma BeliefDivergesOnRefusal(s: SchedState, accepted: bool)
    requires !s.usingNoop && s.active != NOOP
    ensures ChangeElevator(s, true, false).usingNoop
    ensures ChangeElevator(s, true, false).active == s.active != NOOP
    ensures Request(ChangeElevator(s, true, false), false) == None
    ensures ChangeElevator(ChangeElevator(s, true, false), false, accepted) == s.(prevE := s.active)
  {
  }

  /**
   * While the belief is false the way back is the early return: no
   * elevator_change call and no change, whatever elevator the queue runs.
   * Only a switch to noop (the sleep work) can make restore_prev_fn act.
   */
  lemma RestoreWithoutSleepDoesNothing(s: SchedState, accepted: bool)
    requires !s.usingNoop
    ensures Calls(s, false) == []
    ensures ChangeElevator(s, false, accepted) == s
  {
  }

  /**
   * A queue that already ran noop when the conf was registered: after a
   * sleep, the way back asks elevator_change for the zero-initialised name "".
   */
  lemma RestoreFromInitialNoop(accepted: bool)
    ensures Request(ChangeElevator(InitialSched(NOOP), true, accepted), false) == Some("")
  {
  }

  /** The two delayed work items of a conf: restore_prev and sleep_sched. */
  datatype WorkItem = RestorePrev | SleepSched

  /** Which side of change_elevator a work item's function asks for: sleep_sched goes to noop. */
  function UsesNoop(item: WorkItem): bool
  {
    item == SleepSched
  }

  /** delayed_work_pending followed, when it holds, by cancel_delayed_work_sync. */
  function Cancel(pending: set<WorkItem>, item: WorkItem): set<WorkItem>
  {
    if item in pending then pending - {item} else pending
  }

  /** schedule_delayed_work: an item that is already pending stays queued on its earlier timer. */
  function Schedule(pending: set<WorkItem>, item: WorkItem): set<WorkItem>
  {
    pending + {item}
  }

  /** The pending work items after fb_notifier_callback(action, blank). */
  function FbNotify(pending: set<WorkItem>, action: int, blank: int): (r: set<WorkItem>)
    // events other than the early blank event are passed through untouched
    ensures action != FB_EARLY_EVENT_BLANK ==> r == pending
    // an early event leaves exactly one item pending: restore on unblank, sleep otherwise
    ensures action == FB_EARLY_EVENT_BLANK ==>
              r == (if blank == FB_BLANK_UNBLANK then {RestorePrev} else {SleepSched})
  {
    if action != FB_EARLY_EVENT_BLANK then pending
    else if blank == FB_BLANK_UNBLANK then
      var r := Schedule(Cancel(pending, SleepSched), RestorePrev);
      assert forall item :: item in r <==> item == RestorePrev;
      r
    else
      var r := Schedule(Cancel(pending, RestorePrev), SleepSched);
      assert forall item :: item in r <==> item == SleepSched;
      r
  }

  /**
   * The value init_iosched_switcher returns, given whether a queue was
   * passed, whether a conf is already registered and whether kzalloc succeeds.
   */
  function InitResult(queueGiven: bool, registered: bool, allocOk: bool): (r: int)
    ensures r == 0 <==> queueGiven && !registered && allocOk
    ensures r == -EINVAL <==> !queueGiven || registered
    ensures r == -ENOMEM <==> queueGiven && !registered && !allocOk
  {
    if !queueGiven then -EINVAL
    else if registered then -EINVAL
    else if !allocOk then -ENOMEM
    else 0
  }
}
