/**
 * The switcher as block/iosched_switcher.c runs it: a conf object whose
 * fields change_elevator and the framebuffer notifier update in place, the
 * request queue whose active elevator it switches, and the registry that
 * holds the one global conf (config_g). Every method is proved against the
 * functions of module Switcher, or against a step of SwitcherTraces, so the
 * lemmas proved there hold of these objects.
 */
module IoschedSwitcher {
  import opened Switcher
  import opened SwitcherTraces

  /** A block request queue, reduced to the name of its active elevator. */
  class RequestQueue {
    var elevatorName: string
    /** Every name handed to elevator_change for this queue, oldest first. */
    ghost var requests: seq<string>

    constructor (name: string)
      ensures elevatorName == name && requests == []
    {
      elevatorName := name;
      requests := [];
    }
  }

  /**
   * elevator_change(q, name) of the block layer, which is not part of this
   * model: it installs `name`, or refuses (unknown elevator, failed set-up),
   * and the model does not decide which.
   */
  method ElevatorChange(q: RequestQueue, name: string) returns (err: int)
    modifies q
    ensures q.requests == old(q.requests) + [name]
    ensures err == 0 ==> q.elevatorName == name
    ensures err != 0 ==> q.elevatorName == old(q.elevatorName)
  {
    q.requests := q.requests + [name];
    var accepts: bool :| true;
    if accepts {
      q.elevatorName := name;
      err := 0;
    } else {
      err := -EINVAL;
    }
  }

  /** struct iosched_conf: the two delayed work items, the queue, the saved name and the belief. */
  class IoschedConf {
    var restorePending: bool
    var sleepPending: bool
    const queue: RequestQueue
    var prevE: string
    var usingNoop: bool

    /** The state change_elevator works on. */
    function State(): SchedState
      reads this, queue
    {
      SchedState(usingNoop, prevE, queue.elevatorName)
    }

    /** The work items that are pending. */
    function Pending(): set<WorkItem>
      reads this
    {
      (if restorePending then {RestorePrev} else {}) + (if sleepPending then {SleepSched} else {})
    }

    /** The conf together with its queue, as a step of a run sees it. */
    function AsWorld(): World
      reads this, queue
    {
      World(State(), Pending())
    }

    /**
     * kzalloc'd conf with `queue` set: belief false, saved name empty, and
     * neither work item pending (INIT_DELAYED_WORK).
     */
    constructor (q: RequestQueue)
      ensures queue == q
      ensures AsWorld() == Registered(q.elevatorName)
    {
      restorePending, sleepPending := false, false;
      queue := q;
      prevE := "";
      usingNoop := false;
    }

    /**
     * change_elevator(c, useNoop). `accepted` tells whether the
     * elevator_change call it makes, if any, succeeded; the source ignores
     * that result. The queue's log shows whether a call was made.
     */
    method ChangeElevator(useNoop: bool) returns (ghost accepted: bool)
      modifies this, queue
      ensures State() == Switcher.ChangeElevator(old(State()), useNoop, accepted)
      ensures queue.requests == old(queue.requests) + Calls(old(State()), useNoop)
      ensures Pending() == old(Pending())
    {
      var q := queue;
      accepted := true;
      if usingNoop == useNoop {
        return;
      }
      usingNoop := useNoop;
      // read under q->queue_lock in the source
      var name := q.elevatorName;
      if useNoop {
        if name != NOOP {
          prevE := name;
          var err := ElevatorChange(q, NOOP);
          accepted := err == 0;
        }
      } else {
        if name == NOOP {
          var err := ElevatorChange(q, prevE);
          accepted := err == 0;
        }
      }
    }

    /** restore_prev_fn: switch back from noop. */
    method RestorePrevFn() returns (ghost accepted: bool)
      modifies this, queue
      ensures State() == Switcher.ChangeElevator(old(State()), false, accepted)
      ensures queue.requests == old(queue.requests) + Calls(old(State()), false)
      ensures Pending() == old(Pending())
    {
      accepted := ChangeElevator(false);
    }

    /**
     * set_sleep_sched_fn. The source calls change_all_elevators(&req_queues.list,
     * true), which the file does not define; it is taken to run
     * change_elevator(c, true) on every registered conf, so here on this one.
     * restore_prev_fn, by contrast, restores only this conf's queue.
     */
    method SetSleepSchedFn() returns (ghost accepted: bool)
      modifies this, queue
      ensures State() == Switcher.ChangeElevator(old(State()), true, accepted)
      ensures queue.requests == old(queue.requests) + Calls(old(State()), true)
      ensures Pending() == old(Pending())
    {
      accepted := ChangeElevator(true);
    }

    /** The workqueue runs the pending restore_prev: it stops being pending, then restore_prev_fn runs. */
    method RunRestorePrev() returns (ghost accepted: bool)
      requires restorePending
      modifies this, queue
      ensures AsWorld() == Apply(old(AsWorld()), Fire(RestorePrev, accepted))
      ensures queue.requests == old(queue.requests) + Calls(old(State()), false)
    {
      restorePending := false;
      accepted := RestorePrevFn();
    }

    /** The workqueue runs the pending sleep_sched: it stops being pending, then set_sleep_sched_fn runs. */
    method RunSleepSched() returns (ghost accepted: bool)
      requires sleepPending
      modifies this, queue
      ensures AsWorld() == Apply(old(AsWorld()), Fire(SleepSched, accepted))
      ensures queue.requests == old(queue.requests) + Calls(old(State()), true)
    {
      sleepPending := false;
      accepted := SetSleepSchedFn();
    }
  }

  /** The module's global state: config_g and whether the notifier is on the fb client chain. */
  class Registry {
    var config: IoschedConf?
    var fbClientRegistered: bool

    /** The notifier is registered exactly when a conf is. */
    ghost predicate Valid()
      reads this
    {
      fbClientRegistered <==> config != null
    }

    /** Module load: config_g is a zeroed static. */
    constructor ()
      ensures Valid() && config == null
    {
      config := null;
      fbClientRegistered := false;
    }

    /**
     * init_iosched_switcher(q); `allocOk` is whether kzalloc succeeds. Only
     * the first successful call registers a conf; every failure leaves
     * config_g as it was.
     */
    method InitIoschedSwitcher(q: RequestQueue?, allocOk: bool) returns (ret: int)
      requires Valid()
      modifies this
      ensures Valid()
      ensures ret == InitResult(q != null, old(config) != null, allocOk)
      ensures ret != 0 ==> config == old(config)
      ensures ret == 0 ==> q != null && config != null && fresh(config) && config.queue == q
      ensures ret == 0 ==> config.AsWorld() == Registered(q.elevatorName)
    {
      if q == null {
        return -EINVAL;
      }
      if config != null {
        return -EINVAL;
      }
      if !allocOk {
        return -ENOMEM;
      }
      var c := new IoschedConf(q);
      config := c;
      fbClientRegistered := true;
      return 0;
    }

    /**
     * fb_notifier_callback(nb, action, &blank), which the fb client chain
     * calls only once the notifier is registered. Early blank events cancel
     * the opposite work item if it is pending and schedule their own.
     */
    method FbNotifierCallback(action: int, blank: int) returns (ret: int)
      requires Valid() && fbClientRegistered
      modifies config
      ensures ret == NOTIFY_OK
      ensures config.AsWorld() == Apply(old(config.AsWorld()), FbEvent(action, blank))
    {
      var c := config;
      if action != FB_EARLY_EVENT_BLANK {
        return NOTIFY_OK;
      }
      if blank == FB_BLANK_UNBLANK {
        if c.sleepPending {
          c.sleepPending := false;    // cancel_delayed_work_sync
        }
        c.restorePending := true;     // schedule_delayed_work
      } else {
        if c.restorePending {
          c.restorePending := false;
        }
        c.sleepPending := true;
      }
      return NOTIFY_OK;
    }
  }
}
