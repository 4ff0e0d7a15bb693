/**
 * `EngineScheduler.run` of engine.py, one test or effect at a time, so that a `wake()` or a stop
 * from another thread can fall between any two of them. `Event.wait` answers true only if the flag
 * is set, and clearing the flag is a separate step.
 */
module SchedulerLoop {
  datatype Pc =
    | LoopTest     // while not stop requested
    | InCycle      // from begin_cycle to the end of run_cycle
    | AfterCycle   // the stop test that follows the cycle
    | WaitTest     // the stop and deadline tests of the wait loop
    | Waiting      // inside wake_event.wait
    | Clearing     // the wait answered true; the flag is about to be cleared
    | Done

  /** What the outside decides at one step: what other threads do first, and whether time is up. */
  datatype Tick = Tick(wakes: bool, stops: bool, deadlinePassed: bool, waitTimesOut: bool)

  class Scheduler {
    var pc: Pc
    var wakeFlag: bool
    var stopRequested: bool
    /** Cycles begun so far. */
    var cycles: nat
    /** A wake-up came, and no cycle has begun since. */
    ghost var owed: bool

    constructor ()
      ensures Inv() && pc == LoopTest && cycles == 0 && !owed && !stopRequested
    {
      pc, wakeFlag, stopRequested, cycles, owed := LoopTest, false, false, 0, false;
    }

    ghost predicate Inv()
      reads this
    {
      && (owed ==> wakeFlag || pc == Clearing || pc == LoopTest || pc == Done)
      && (pc == Done ==> stopRequested)
    }

    /** How many of the worker's own steps are left, at most, before it begins a cycle. */
    function Distance(): nat
      reads this`pc
    {
      match pc
      case LoopTest => 0
      case Clearing => 1
      case Waiting => 2
      case WaitTest => 3
      case AfterCycle => 4
      case InCycle => 5
      case Done => 0
    }

    method Wake()
      requires Inv()
      modifies this`wakeFlag, this`owed
      ensures Inv() && wakeFlag && owed
    {
      wakeFlag := true;
      owed := true;
    }

    method Stop()
      requires Inv()
      modifies this`stopRequested
      ensures Inv() && stopRequested
    {
      stopRequested := true;
    }

    /** The worker's next step. While a wake-up is owed, no step moves away from the next cycle. */
    method Advance(deadlinePassed: bool, waitTimesOut: bool)
      requires Inv() && pc != Done
      modifies this`pc, this`wakeFlag, this`cycles, this`owed
      ensures Inv()
      ensures cycles == old(cycles) || (cycles == old(cycles) + 1 && pc == InCycle && !owed)
      ensures cycles == old(cycles) ==> owed == old(owed)
      ensures old(owed) && !stopRequested ==> cycles == old(cycles) + 1 || Distance() < old(Distance())
      ensures pc == Done ==> stopRequested
      ensures stopRequested ==> cycles == old(cycles)
    {
      match pc
      case LoopTest =>
        if stopRequested {
          pc := Done;
        } else {
          pc := InCycle;
          cycles := cycles + 1;
          owed := false;
        }
      case InCycle => pc := AfterCycle;
      case AfterCycle => pc := if stopRequested then Done else WaitTest;
      case WaitTest => pc := if stopRequested || deadlinePassed then LoopTest else Waiting;
      case Waiting =>
        if wakeFlag {
          pc := Clearing;
        } else if waitTimesOut {
          pc := WaitTest;
        }
      case Clearing =>
        wakeFlag := false;
        pc := LoopTest;
    }

    /**
     * However the other threads and the clock interleave with the worker, a wake-up that is not
     * overtaken by a stop is followed, within six steps of the worker, by the start of a new cycle.
     */
    method ServeWake(script: nat -> Tick) returns (steps: nat)
      requires Inv() && owed && !stopRequested
      requires forall k :: !script(k).stops
      modifies this
      ensures Inv() && cycles == old(cycles) + 1 && pc == InCycle
      ensures steps <= old(Distance()) + 1 <= 6
    {
      steps := 0;
      var before := cycles;
      while cycles == before
        invariant Inv() && !stopRequested
        invariant cycles == before ==> owed && steps + Distance() <= old(Distance())
        invariant cycles != before ==> cycles == before + 1 && pc == InCycle && steps <= old(Distance()) + 1
        decreases cycles == before, Distance()
      {
        var tick := script(steps);
        if tick.wakes {
          Wake();
        }
        Advance(tick.deadlinePassed, tick.waitTimesOut);
        steps := steps + 1;
      }
    }

    /** Any run: the worker ends only when it was told to. */
    method Run(script: nat -> Tick, steps: nat)
      requires Inv()
      modifies this
      ensures Inv() && (pc == Done ==> stopRequested)
    {
      for k := 0 to steps
        invariant Inv()
      {
        var tick := script(k);
        if tick.wakes {
          Wake();
        }
        if tick.stops {
          Stop();
        }
        if pc != Done {
          Advance(tick.deadlinePassed, tick.waitTimesOut);
        }
      }
    }
  }
}
