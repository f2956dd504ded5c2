# iosched_switcher in Dafny

A model of `block/iosched_switcher.c`, the kernel glue that moves one block
request queue to the `noop` I/O scheduler (elevator) while the screen is off
and puts back the previous elevator after the screen comes on again.

- `switcher.dfy`, module `Switcher`: the pure state machine. It covers the
  conf's belief `usingNoop`, its saved name `prevE` and the queue's active
  elevator (`SchedState`). `ChangeElevator` is `change_elevator`, and `Request`
  is the `elevator_change` call it makes, if any. `FbNotify` gives the pending
  work items after a framebuffer notification. `InitResult` is what
  registration returns. The constants `NOOP` (`NOOP_IOSCHED`) and
  `RESTORE_DELAY_MS` are kept, and so are the Linux values of the kernel
  constants the file uses.
- `traces.dfy`, module `SwitcherTraces`: runs of the registered switcher. A run
  is a sequence of notifications, work items run by the workqueue, and
  elevators installed by other agents. Lemmas here are invariants over every
  run, plus the screen-off/screen-on scenarios.
- `iosched_switcher.dfy`, module `IoschedSwitcher`: the code in its own form.
  `IoschedConf` is `struct iosched_conf`, with fields updated in place.
  `RequestQueue` holds the active elevator name and a ghost log of every
  `elevator_change` request. `Registry` holds `config_g` and the fb client
  registration. Each method's `ensures` ties the new state to a function of
  `Switcher`, or to a step of `SwitcherTraces`, so the lemmas proved there
  hold of the objects.

`elevator_change` belongs to the block layer and may refuse a name. On the
pure side that choice is the `accepted` parameter. On the object side the
method `ElevatorChange` decides it nondeterministically. Allocation success
in `kzalloc` is the `allocOk` parameter of `InitIoschedSwitcher`.

Three points where the code's behaviour is easy to misread:

- A second registration returns `-EINVAL`, the same code as a null queue. It
  does not have an error of its own.
- `usingNoop` is updated before `elevator_change` is called, and that call's
  result is ignored. `BeliefDivergesOnRefusal` states the consequence.
- The bare identifiers `sleep_sched` and `restore_prev` at lines 77-78, 88-90
  and 137 are taken to be the conf's two work items. Reading `restore_prev`
  at lines 88-89 as `c->restore_prev` is what lets a blank event cancel the
  restore item scheduled at line 79. `SwitcherTraces.RunKeepsExclusive` rests
  on that reading.

## Model

| member | source | states |
|---|---|---|
| `Switcher.Request` | block/iosched_switcher.c:39-56 | no `elevator_change` call when the belief already matches; otherwise exactly one call when the active elevator is on the other side of noop: `"noop"` going to sleep, the saved name coming back |
| `Switcher.ChangeElevator` | block/iosched_switcher.c:34-57 | a request matching the belief changes nothing; otherwise the belief becomes the request whether or not the switch succeeded; the old name is saved only when noop is actually requested; the active elevator moves only to an accepted request |
| `Switcher.SecondChangeIsNoop` | block/iosched_switcher.c:39-42 | a second `change_elevator` to the same side makes no call and changes nothing |
| `Switcher.RoundTrip` | block/iosched_switcher.c:48-56 | from a belief of false on a non-noop elevator, going to noop and back with both changes accepted restores that elevator and leaves it saved |
| `Switcher.DeadlineRoundTrip` | block/iosched_switcher.c:48-56 | a queue running `"deadline"` gets `"deadline"` back |
| `Switcher.AlreadyNoopKeepsPrev` | block/iosched_switcher.c:48-52 | switching to noop while noop is already active makes no call and keeps the saved name; only the belief changes |
| `Switcher.BeliefDivergesOnRefusal` | block/iosched_switcher.c:42-56 | a refused switch to noop leaves the belief true while the queue is not on noop; the switch back then only clears the belief, without a call |
| `Switcher.RestoreWithoutSleepDoesNothing` | block/iosched_switcher.c:39-40 | while the belief is false, `change_elevator(c, false)` makes no `elevator_change` call and changes nothing, whatever the queue runs |
| `Switcher.RestoreFromInitialNoop` | block/iosched_switcher.c:53-55 | on a queue already on noop at registration, the way back asks `elevator_change` for the zero-initialised name `""` |
| `Switcher.FbNotify` | block/iosched_switcher.c:59-95 | events other than `FB_EARLY_EVENT_BLANK` leave the pending work untouched; an early event leaves exactly one item pending, restore on `FB_BLANK_UNBLANK` and sleep on any other blank code |
| `Switcher.InitResult` | block/iosched_switcher.c:114-141 | 0 exactly when a queue is given, none is registered and allocation succeeds; `-EINVAL` for a null queue or a second registration; `-ENOMEM` for a failed allocation |
| `SwitcherTraces.RunKeepsExclusive` | block/iosched_switcher.c:70-92 | in every run the restore and sleep work items are never pending together |
| `SwitcherTraces.EventsLeaveSchedAlone` | block/iosched_switcher.c:59-95 | notifications alone never change the belief, the saved name or the active elevator |
| `SwitcherTraces.PrevNeverNoop` | block/iosched_switcher.c:48-52 | in every run, even with refusals and other agents, the saved name is never `"noop"`, so the way back never requests noop |
| `SwitcherTraces.IdealRunKeepsIntended` | block/iosched_switcher.c:101-112 | when every change is accepted and nobody else touches the queue, the belief stays true to the queue and the elevator the user chose is preserved |
| `SwitcherTraces.IdealRunRestores` | block/iosched_switcher.c:101-112 | from registration on a non-noop elevator, every such run leaves the queue either on noop with that elevator saved or back on that elevator |
| `SwitcherTraces.OffThenOnBeforeSleep` | block/iosched_switcher.c:70-92 | screen off schedules sleep; screen on before it runs cancels it and schedules restore; after both items have had their chance, the switcher is back at its registered state on `"deadline"` |
| `SwitcherTraces.SleepThenRestore` | block/iosched_switcher.c:101-112 | screen off then the sleep work puts the queue on noop with `"deadline"` saved; screen on then the restore work puts `"deadline"` back |
| `IoschedSwitcher.ElevatorChange` | block/iosched_switcher.c:51-55 | every call is logged on the queue; on success the named elevator is active, on failure the queue is unchanged |
| `IoschedSwitcher.IoschedConf.constructor` | block/iosched_switcher.c:128-137 | a zeroed conf on the given queue: belief false, empty saved name, no work pending |
| `IoschedSwitcher.IoschedConf.ChangeElevator` | block/iosched_switcher.c:34-57 | the new state is `Switcher.ChangeElevator` of the old one; the queue's log gains exactly the request `Switcher.Request` names (`Switcher.Calls`); pending work unchanged |
| `IoschedSwitcher.IoschedConf.RestorePrevFn` | block/iosched_switcher.c:101-107 | `change_elevator(c, false)` on the conf: new state per `Switcher.ChangeElevator`, the queue's log gains exactly `Switcher.Calls`, pending work unchanged |
| `IoschedSwitcher.IoschedConf.SetSleepSchedFn` | block/iosched_switcher.c:109-112 | `change_elevator(c, true)` on the conf's own queue: new state per `Switcher.ChangeElevator`, the queue's log gains exactly `Switcher.Calls`, pending work unchanged |
| `IoschedSwitcher.IoschedConf.RunRestorePrev` | block/iosched_switcher.c:101-107 | the workqueue running a pending restore item is exactly the `Fire(RestorePrev, _)` step of a run, and the queue's log gains exactly the calls `Switcher.Calls` names for the switch back, at most one |
| `IoschedSwitcher.IoschedConf.RunSleepSched` | block/iosched_switcher.c:109-112 | the workqueue running a pending sleep item is exactly the `Fire(SleepSched, _)` step of a run, and the queue's log gains exactly the calls `Switcher.Calls` names for the switch to noop, at most one |
| `IoschedSwitcher.Registry.constructor` | block/iosched_switcher.c:32 | `config_g` starts null and nothing is registered |
| `IoschedSwitcher.Registry.InitIoschedSwitcher` | block/iosched_switcher.c:114-141 | returns `InitResult`; every failure leaves `config_g` as it was; success stores a fresh conf on `q` with belief false and no work pending, and registers the notifier |
| `IoschedSwitcher.Registry.FbNotifierCallback` | block/iosched_switcher.c:59-95 | always returns `NOTIFY_OK`; the conf changes exactly as the `FbEvent` step of a run: pending work per `FbNotify`, belief, saved name and elevator untouched |

## Left out

- Locking: `spin_lock_irq` on `q->queue_lock` around the name read (lines 44-46) becomes a plain field read.
- Concurrency of the workqueue. Each step of a run, and each method, runs to completion before the next begins. The blocking of `cancel_delayed_work_sync` and the window in which both work items could be pending are not modelled.
- Timing: `msecs_to_jiffies(RESTORE_DELAY_MS)` and the timers. `RESTORE_DELAY_MS` is only a constant. A work item runs whenever the run says it fires, provided it is pending. Re-scheduling a pending item keeps it pending; its timer is not modelled.
- IoschedSwitcher.IoschedConf.SetSleepSchedFn: line 111 calls `change_all_elevators(&req_queues.list, true)`. Neither that routine nor `req_queues` is defined in the file, so what it does is not known here. The model assumes it runs `change_elevator(c, true)` on every registered conf, this one included. Under that assumption it sets the conf's belief and saved name as well as switching the queue. Other queues the routine may switch are not modelled. Without the assumption, nothing in the file sets `using_noop` to true: line 42 is its only write and line 106 is the only call to `change_elevator`. Then `restore_prev_fn` always returns at lines 39-40 and never restores anything (`Switcher.RestoreWithoutSleepDoesNothing`). `SleepThenRestore`, `IdealRunRestores` and the sleep case of `SwitcherTraces.Apply` rest on the assumption.
- `elevator_change` itself: only its effect (install the name, or refuse) is modelled. Which names the block layer accepts is left open.
- `fb_register_client`, the `notifier_block`, `container_of` and `pr_err` logging are not modelled. Registration is a flag and the event payload is a plain `blank` integer.
- `kzalloc` is only a success/failure choice.
- `ELV_NAME_MAX` and the `strcpy` into fixed buffers are not modelled. Names are unbounded strings and `strcmp` is string equality.
- There is no teardown or unregistration, as in the source.
