/**
 * `EngineLifecycleController` of engine_runtime.py: one lock, at most one live worker thread,
 * workers that are draining, and a waiter that restarts the engine once they have drained. Every
 * section under the lock is one method; `Run` interleaves them with the threads' own exits and the
 * process stop in any order.
 */
module EngineLifecycle {
  import opened Basics

  type Thread = nat

  datatype Action =
    | Reconcile(configured: bool)
    | Wake
    | BeginShutdown
    | EndShutdown
    | WaiterRuns
    | WorkerExits(worker: Thread)
    | ProcessStops

  function LastRequest(before: bool, actions: seq<Action>): bool {
    if actions == [] then before else
      match actions[|actions| - 1]
      case Reconcile(configured) => configured
      case BeginShutdown => false
      case _ => LastRequest(before, actions[..|actions| - 1])
  }

  class Controller {
    // the controller's own fields
    var configured: bool
    var scheduler: Option<Thread>
    var draining: seq<Thread>
    var restartWaiter: bool
    // the threads and events it shares with the rest of the process
    var alive: set<Thread>
    var stopRequested: set<Thread>
    var processStopping: bool
    var started: nat
    /** What the last `reconcile` asked for, or `false` after a shutdown. */
    ghost var wanted: bool
    /** The wake-ups that reached each worker. */
    ghost var woken: multiset<Thread>

    constructor ()
      ensures Inv() && !configured && scheduler == None && alive == {}
    {
      configured, scheduler, draining, restartWaiter := false, None, [], false;
      alive, stopRequested, processStopping, started := {}, {}, false, 0;
      wanted, woken := false, multiset{};
    }

    /** No two workers are ever alive together, and whoever is not the scheduler was told to stop. */
    ghost predicate Threads()
      reads this
    {
      && (forall t, u :: t in alive && u in alive ==> t == u)
      && (forall t :: t in alive ==> t < started && (scheduler == Some(t) || t in draining))
      && (forall t :: t in draining ==> t in stopRequested && scheduler != Some(t))
      && (forall t :: t in stopRequested ==> t < started && scheduler != Some(t))
      && (scheduler.Some? ==> scheduler.value < started && (scheduler.value in alive || processStopping))
    }

    /** A wanted engine runs, or will be restarted. */
    ghost predicate Inv()
      reads this
    {
      && Threads()
      && (wanted && !processStopping ==> configured && (scheduler.Some? || restartWaiter))
      && (configured ==> wanted)
    }

    function Live(threads: seq<Thread>): (live: seq<Thread>)
      reads this`alive
      ensures forall t :: t in live <==> t in threads && t in alive
    {
      if threads == [] then [] else
        var rest := Live(threads[1..]);
        if threads[0] in alive then [threads[0]] + rest else rest
    }

    method PruneDraining()
      requires Threads()
      modifies this`draining
      ensures Threads()
      ensures forall t :: t in draining <==> t in old(draining) && t in alive
    {
      draining := Live(draining);
    }

    method StartScheduler()
      requires Threads() && scheduler == None && draining == []
      modifies this`scheduler, this`alive, this`started
      ensures scheduler == Some(old(started)) && alive == {old(started)} && started == old(started) + 1
      ensures Threads()
    {
      assert alive == {};
      scheduler := Some(started);
      alive := alive + {started};
      started := started + 1;
    }

    method WakeScheduler()
      modifies this`woken
      ensures woken == if scheduler.Some? then old(woken) + multiset{scheduler.value} else old(woken)
    {
      if scheduler.Some? {
        woken := woken + multiset{scheduler.value};
      }
    }

    /** `_request_scheduler_stop_locked`: the worker is told to stop and woken, and drains if it still lives. */
    method RequestSchedulerStop()
      requires Threads()
      modifies this`scheduler, this`draining, this`stopRequested, this`woken
      ensures scheduler == None && Threads()
      ensures old(scheduler).None? ==>
                draining == old(draining) && stopRequested == old(stopRequested) && woken == old(woken)
      ensures old(scheduler).Some? ==>
                var t := old(scheduler).value;
                && stopRequested == old(stopRequested) + {t} && woken == old(woken) + multiset{t}
                && (forall u :: u in draining <==> u in old(draining) || (u == t && t in alive))
    {
      var stopping := scheduler;
      scheduler := None;
      if stopping.None? {
        return;
      }
      var t := stopping.value;
      stopRequested := stopRequested + {t};
      woken := woken + multiset{t};
      if t in alive && t !in draining {
        draining := draining + [t];
      }
    }

    method Reconcile(request: bool)
      requires Inv()
      modifies this
      ensures Inv() && processStopping == old(processStopping)
      ensures wanted == request && configured == (request && !processStopping)
      ensures configured && old(scheduler).Some? ==>
                scheduler == old(scheduler) && alive == old(alive) && woken == old(woken) + multiset{scheduler.value}
      ensures configured && old(scheduler).None? && old(alive) == {} ==> scheduler == Some(old(started))
      ensures configured && old(scheduler).None? && old(alive) != {} ==> scheduler == None && restartWaiter
      ensures !configured ==> scheduler == None && alive == old(alive)
      ensures !configured && old(scheduler).Some? ==> old(scheduler).value in stopRequested
    {
      wanted := request;
      configured := request && !processStopping;
      PruneDraining();
      if configured {
        if scheduler.Some? {
          WakeScheduler();
        } else if draining != [] {
          assert draining[0] in draining;
          restartWaiter := true;
        } else {
          assert forall t :: t !in draining;
          StartScheduler();
        }
        return;
      }
      RequestSchedulerStop();
    }

    method Wake()
      requires Inv()
      modifies this`woken
      ensures Inv()
      ensures woken == if scheduler.Some? then old(woken) + multiset{scheduler.value} else old(woken)
    {
      WakeScheduler();
    }

    method BeginShutdown()
      requires Inv()
      modifies this
      ensures Inv() && !configured && !wanted && scheduler == None
      ensures alive == old(alive) && processStopping == old(processStopping) && restartWaiter == old(restartWaiter)
      ensures forall t :: t in alive ==> t in draining && t in stopRequested
    {
      wanted, configured := false, false;
      RequestSchedulerStop();
    }

    /** The bounded join is over: `drained` is what `shutdown` returns. */
    method EndShutdown(joined: seq<Thread>) returns (drained: bool)
      requires Inv()
      modifies this`draining
      ensures Inv()
      ensures drained <==> forall t :: t in joined ==> t !in alive
    {
      var running := Live(joined);
      PruneDraining();
      if running != [] {
        assert running[0] in running;
      }
      drained := running == [];
      assert drained ==> forall t :: t !in running;
    }

    /** One pass of the waiter's loop. Once the old workers are gone it starts the engine that is wanted. */
    method WaiterRuns()
      requires Inv() && restartWaiter
      modifies this
      ensures Inv() && processStopping == old(processStopping) && wanted == old(wanted)
      ensures restartWaiter <==> exists t :: t in old(draining) && t in old(alive)
      ensures restartWaiter ==> scheduler == old(scheduler) && configured == old(configured)
      ensures !restartWaiter && old(wanted) && !processStopping ==> scheduler.Some? && scheduler.value in alive
      ensures !restartWaiter && (processStopping || !old(configured)) ==> scheduler == old(scheduler) && !configured
    {
      PruneDraining();
      if draining != [] {
        assert draining[0] in draining;
        return;
      }
      assert forall t :: t !in draining;
      if processStopping {
        restartWaiter := false;
        configured := false;
      } else if configured && scheduler == None {
        StartScheduler();
        restartWaiter := false;
      } else {
        restartWaiter := false;
      }
    }

    /** A worker's loop ends only when it, or the whole process, was told to stop. */
    method WorkerExits(t: Thread)
      requires Inv() && t in alive && (t in stopRequested || processStopping)
      modifies this`alive
      ensures Inv() && alive == old(alive) - {t}
    {
      alive := alive - {t};
    }

    method ProcessStops()
      requires Inv()
      modifies this`processStopping
      ensures Inv() && processStopping
    {
      processStopping := true;
    }

    /** Any interleaving: what was asked for last decides whether an engine runs or is about to. */
    method Run(actions: seq<Action>)
      requires Inv()
      modifies this
      ensures Inv() && wanted == LastRequest(old(wanted), actions)
    {
      for k := 0 to |actions|
        invariant Inv() && wanted == LastRequest(old(wanted), actions[..k])
      {
        assert actions[..k + 1][..k] == actions[..k];
        match actions[k] {
          case Reconcile(request) => Reconcile(request);
          case Wake => Wake();
          case BeginShutdown => BeginShutdown();
          case EndShutdown => var drained := EndShutdown(draining);
          case WaiterRuns => if restartWaiter { WaiterRuns(); }
          case WorkerExits(t) => if t in alive && (t in stopRequested || processStopping) { WorkerExits(t); }
          case ProcessStops => ProcessStops();
        }
      }
      assert actions[..|actions|] == actions;
    }
  }
}
