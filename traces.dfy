/**
 * Runs of the switcher once registered: framebuffer notifications, the
 * workqueue running a pending work item, and elevator changes made by some
 * other agent, applied one after another. The workqueue is sequential here:
 * each step runs to completion before the next begins.
 */
module SwitcherTraces {
  import opened Switcher

  /** A registered conf together with the queue it drives. */
  datatype World = World(sched: SchedState, pending: set<WorkItem>)

  datatype Step =
    | FbEvent(action: int, blank: int)        // fb_notifier_callback(action, &blank)
    | Fire(item: WorkItem, accepted: bool)    // the workqueue runs `item`; `accepted`: elevator_change succeeds
    | SetByOther(name: string)                // another agent installs `name` on the queue

  /** The world right after a successful init_iosched_switcher on a queue running `active`. */
  function Registered(active: string): World
  {
    World(InitialSched(active), {})
  }

  /**
   * One step. A work item that is not pending does not run; a running one
   * leaves the pending set before its function (restore_prev_fn or
   * set_sleep_sched_fn) calls change_elevator.
   */
  function Apply(w: World, st: Step): World
  {
    match st
    case FbEvent(action, blank) => w.(pending := FbNotify(w.pending, action, blank))
    case Fire(item, accepted) =>
      if item !in w.pending then w
      else World(ChangeElevator(w.sched, UsesNoop(item), accepted), w.pending - {item})
    case SetByOther(name) => w.(sched := w.sched.(active := name))
  }

  function Run(w: World, steps: seq<Step>): World
    decreases |steps|
  {
    if steps == [] then w else Run(Apply(w, steps[0]), steps[1..])
  }

  /** The two work items are never pending together. */
  predicate Exclusive(pending: set<WorkItem>)
  {
    !(RestorePrev in pending && SleepSched in pending)
  }

  /** Every step keeps the two work items from being pending together. */
  lemma {:induction false} RunKeepsExclusive(w: World, steps: seq<Step>)
    requires Exclusive(w.pending)
    ensures Exclusive(Run(w, steps).pending)
    decreases |steps|
  {
    if steps != [] {
      var w' := Apply(w, steps[0]);
      assert Exclusive(w'.pending);
      RunKeepsExclusive(w', steps[1..]);
    }
  }

  /**
   * Notifications alone never touch the elevator, the belief or the saved
   * name: those change only when a work item runs.
   */
  lemma {:induction false} EventsLeaveSchedAlone(w: World, steps: seq<Step>)
    requires forall i :: 0 <= i < |steps| ==> steps[i].FbEvent?
    ensures Run(w, steps).sched == w.sched
    decreases |steps|
  {
    if steps != [] {
      EventsLeaveSchedAlone(Apply(w, steps[0]), steps[1..]);
    }
  }

  /**
   * The saved name is never "noop", whatever the block layer accepts and
   * whatever other agents install; so the way back never asks for noop.
   */
  lemma {:induction false} PrevNeverNoop(w: World, steps: seq<Step>)
    requires w.sched.prevE != NOOP
    ensures Run(w, steps).sched.prevE != NOOP
    ensures Request(Run(w, steps).sched, false) != Some(NOOP)
    decreases |steps|
  {
    if steps != [] {
      PrevNeverNoop(Apply(w, steps[0]), steps[1..]);
    }
  }

  /** A step in which every elevator_change succeeds and nobody else touches the queue. */
  predicate Ideal(st: Step)
  {
    match st
    case FbEvent(_, _) => true
    case Fire(_, accepted) => accepted
    case SetByOther(_) => false
  }

  /** The elevator the user chose: the saved one while the switcher holds the queue on noop. */
  function Intended(s: SchedState): string
  {
    if s.usingNoop then s.prevE else s.active
  }

  /** The belief matches the queue and the user's elevator is not noop. */
  predicate Coherent(s: SchedState)
  {
    (s.usingNoop ==> s.active == NOOP) && Intended(s) != NOOP
  }

  lemma ApplyKeepsIntended(w: World, st: Step)
    requires Coherent(w.sched) && Ideal(st)
    ensures Coherent(Apply(w, st).sched)
    ensures Intended(Apply(w, st).sched) == Intended(w.sched)
  {
  }

  /**
   * When every elevator_change succeeds and nobody else touches the queue,
   * the belief stays true to the queue and the user's elevator is never lost.
   */
  lemma {:induction false} IdealRunKeepsIntended(w: World, steps: seq<Step>)
    requires Coherent(w.sched)
    requires forall i :: 0 <= i < |steps| ==> Ideal(steps[i])
    ensures Coherent(Run(w, steps).sched)
    ensures Intended(Run(w, steps).sched) == Intended(w.sched)
    decreases |steps|
  {
    if steps != [] {
      ApplyKeepsIntended(w, steps[0]);
      IdealRunKeepsIntended(Apply(w, steps[0]), steps[1..]);
    }
  }

  /**
   * From registration on a queue running `active` (not noop), every ideal
   * run leaves the queue on noop with `active` saved, or back on `active`.
   */
  lemma IdealRunRestores(active: string, steps: seq<Step>)
    requires active != NOOP
    requires forall i :: 0 <= i < |steps| ==> Ideal(steps[i])
    ensures var s := Run(Registered(active), steps).sched;
            if s.usingNoop then s.active == NOOP && s.prevE == active else s.active == active
  {
    IdealRunKeepsIntended(Registered(active), steps);
  }

  /** The first step of a run is applied first. */
  lemma RunCons(w: World, st: Step, rest: seq<Step>)
    ensures Run(w, [st] + rest) == Run(Apply(w, st), rest)
  {
    assert ([st] + rest)[1..] == rest;
  }

  /**
   * Screen off, then on again before the sleep work runs: the sleep work is
   * cancelled, the restore work runs, and "deadline" was never left.
   */
  lemma OffThenOnBeforeSleep(accepted: bool)
    ensures Run(Registered("deadline"), [FbEvent(FB_EARLY_EVENT_BLANK, FB_BLANK_POWERDOWN)]).pending
            == {SleepSched}
    ensures Run(Registered("deadline"), [FbEvent(FB_EARLY_EVENT_BLANK, FB_BLANK_POWERDOWN),
                                         FbEvent(FB_EARLY_EVENT_BLANK, FB_BLANK_UNBLANK)]).pending
            == {RestorePrev}
    ensures Run(Registered("deadline"), [FbEvent(FB_EARLY_EVENT_BLANK, FB_BLANK_POWERDOWN),
                                         FbEvent(FB_EARLY_EVENT_BLANK, FB_BLANK_UNBLANK),
                                         Fire(SleepSched, accepted),
                                         Fire(RestorePrev, accepted)])
            == Registered("deadline")
  {
    var off, on := FbEvent(FB_EARLY_EVENT_BLANK, FB_BLANK_POWERDOWN), FbEvent(FB_EARLY_EVENT_BLANK, FB_BLANK_UNBLANK);
    var w0 := Registered("deadline");
    var w1 := Apply(w0, off);
    var w2 := Apply(w1, on);
    var w3 := Apply(w2, Fire(SleepSched, accepted));
    assert w2.sched == w0.sched && w2.pending == {RestorePrev};
    assert w3 == w2;
    RunCons(w0, off, []);
    RunCons(w1, on, []);
    RunCons(w0, off, [on]);
    RunCons(w2, Fire(RestorePrev, accepted), []);
    RunCons(w3, Fire(RestorePrev, accepted), []);
    RunCons(w2, Fire(SleepSched, accepted), [Fire(RestorePrev, accepted)]);
    RunCons(w1, on, [Fire(SleepSched, accepted), Fire(RestorePrev, accepted)]);
    RunCons(w0, off, [on, Fire(SleepSched, accepted), Fire(RestorePrev, accepted)]);
  }

  /**
   * Screen off long enough for the sleep work to run, then on: the queue
   * goes to noop and comes back to "deadline" once the restore work runs.
   */
  lemma SleepThenRestore()
    ensures Run(Registered("deadline"), [FbEvent(FB_EARLY_EVENT_BLANK, FB_BLANK_POWERDOWN),
                                         Fire(SleepSched, true)])
            == World(SchedState(true, "deadline", NOOP), {})
    ensures Run(Registered("deadline"), [FbEvent(FB_EARLY_EVENT_BLANK, FB_BLANK_POWERDOWN),
                                         Fire(SleepSched, true),
                                         FbEvent(FB_EARLY_EVENT_BLANK, FB_BLANK_UNBLANK),
                                         Fire(RestorePrev, true)])
            == World(SchedState(false, "deadline", "deadline"), {})
  {
    var off, on := FbEvent(FB_EARLY_EVENT_BLANK, FB_BLANK_POWERDOWN), FbEvent(FB_EARLY_EVENT_BLANK, FB_BLANK_UNBLANK);
    var w0 := Registered("deadline");
    var w1 := Apply(w0, off);
    var w2 := Apply(w1, Fire(SleepSched, true));
    var w3 := Apply(w2, on);
    assert w1.pending == {SleepSched};
    assert w2 == World(SchedState(true, "deadline", NOOP), {});
    assert w3.pending == {RestorePrev};
    RunCons(w1, Fire(SleepSched, true), []);
    RunCons(w0, off, [Fire(SleepSched, true)]);
    RunCons(w3, Fire(RestorePrev, true), []);
    RunCons(w2, on, [Fire(RestorePrev, true)]);
    RunCons(w1, Fire(SleepSched, true), [on, Fire(RestorePrev, true)]);
    RunCons(w0, off, [Fire(SleepSched, true), on, Fire(RestorePrev, true)]);
  }
}
