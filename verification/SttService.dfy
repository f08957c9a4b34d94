// The runtime object itself: each method is one stretch of a thread between two
// points where other threads may run, and is one step of SttRuntime.
module SttService {
  import opened Options
  import opened SttRuntime

  // The three ways a load ends.
  lemma LoadEnds(u: Setup, s: SttRuntime.State, t: nat, loaded: Option<nat>, device: Device, ok: bool, done: bool)
    requires Enabled(s, Run(t, Do(Settle(done)))) && s.threads[t] == Holding(loaded, device, ok)
    ensures var n := Next(u, s, Run(t, Do(Settle(done)))); var again := u.mode == Auto && device == Cuda && !done;
      && n == s.(worker := n.worker, workers := n.workers, fallback := n.fallback, selected := n.selected,
                 threads := n.threads)
      && (ok && !done ==>
            && n.worker == loaded && n.workers == s.workers && n.fallback == s.fallback
            && n.selected == Some(device) && n.threads == s.threads[t := Prepared])
      && (!(ok && !done) ==> n.worker == s.worker && n.workers == CloseAt(s.workers, loaded) && n.selected == s.selected
                             && n.fallback == (s.fallback || again)
                             && n.threads == s.threads[t := if again then Loading(Cpu) else Leaving])
  {
    hide CloseAt;
  }

  class Runtime {
    const setup: Setup
    var closed: bool
    var cancelled: bool
    var initialized: bool
    var worker: Option<nat>
    var workers: seq<Worker>
    var fallback: bool
    var selected: Option<Device>
    var slot: Option<nat>
    var queue: nat
    var closeDone: bool
    ghost var threads: seq<Pc>

    ghost function State(): SttRuntime.State
      reads this
    {
      SttRuntime.State.State(closed, cancelled, initialized, worker, workers, fallback, selected, slot, queue,
                             closeDone, threads)
    }

    ghost predicate May(t: nat, m: Move)
      reads this
    {
      Enabled(State(), Run(t, m))
    }

    // What the interleavings keep.
    ghost predicate Valid()
      reads this
    {
      Inv(setup, State())
    }

    // newRuntime: one load, in auto mode a second one on the cpu.
    constructor (setup: Setup, clients: nat, first: Attempt, second: Attempt)
      ensures this.setup == setup && State() == Boot(setup, clients, first, second)
      ensures Valid()
    {
      this.setup := setup;
      closed, cancelled, initialized, closeDone := false, false, false, false;
      worker, workers, fallback, selected := None, [], false, None;
      slot, queue := None, 0;
      threads := seq(clients, _ => Outside);
      new;
      var device := Preferred(setup, false);
      Try(device, first);
      if !initialized && setup.mode == Auto && !first.done {
        fallback := true;
        Try(Cpu, second);
      }
      BootOk(setup, clients, first, second);
    }

    method Try(device: Device, a: Attempt)
      modifies this
      ensures State() == Tried(old(State()), device, a)
    {
      if a.made {
        var overtaken := !a.ok || a.done;
        workers := workers + [Worker(device, true, overtaken)];
        if !overtaken {
          worker, selected, initialized := Some(|workers| - 1), Some(device), true;
        }
      }
    }

    // --- getting in and out ---------------------------------------------------

    method Unavailable(t: nat) returns (unavailable: bool)
      requires Valid() && May(t, Pass(Enter))
      modifies this`threads
      ensures Valid()
      ensures State() == Next(setup, old(State()), Run(t, Pass(Enter)))
      ensures unavailable <==> old(closed || !initialized)
    {
      hide Inv;
      NextOk(setup, State(), Run(t, Pass(Enter)));
      unavailable := closed || !initialized;
      threads := threads[t := if unavailable then Outside else Available];
    }

    method JoinQueue(t: nat) returns (full: bool)
      requires Valid() && May(t, Pass(Admit))
      modifies this`queue, this`threads
      ensures Valid()
      ensures State() == Next(setup, old(State()), Run(t, Pass(Admit)))
      ensures full <==> old(queue) >= setup.capacity
    {
      hide Inv;
      NextOk(setup, State(), Run(t, Pass(Admit)));
      full := queue >= setup.capacity;
      if !full { queue := queue + 1; }
      threads := threads[t := if full then Outside else Queued];
    }

    method TakeSlot(t: nat)
      requires Valid() && May(t, Pass(Acquire))
      modifies this`slot, this`threads
      ensures Valid()
      ensures State() == Next(setup, old(State()), Run(t, Pass(Acquire)))
    {
      hide Inv;
      NextOk(setup, State(), Run(t, Pass(Acquire)));
      slot := Some(t);
      threads := threads[t := Slotted];
    }

    method StopWaiting(t: nat)
      requires Valid() && May(t, Pass(GiveUp))
      modifies this`threads
      ensures Valid()
      ensures State() == Next(setup, old(State()), Run(t, Pass(GiveUp)))
    {
      hide Inv;
      NextOk(setup, State(), Run(t, Pass(GiveUp)));
      threads := threads[t := Dequeuing];
    }

    method SeesClosed(t: nat) returns (sees: bool)
      requires Valid() && May(t, Pass(CheckClosed))
      modifies this`threads
      ensures Valid()
      ensures State() == Next(setup, old(State()), Run(t, Pass(CheckClosed)))
      ensures sees <==> old(closed)
    {
      hide Inv;
      NextOk(setup, State(), Run(t, Pass(CheckClosed)));
      sees := closed;
      threads := threads[t := if sees then Leaving else SawOpen];
    }

    method SeesCancelled(t: nat, done: bool) returns (sees: bool)
      requires Valid() && May(t, Pass(CheckContext(done)))
      modifies this`threads
      ensures Valid()
      ensures State() == Next(setup, old(State()), Run(t, Pass(CheckContext(done))))
      ensures sees <==> old(cancelled) || done
    {
      hide Inv;
      NextOk(setup, State(), Run(t, Pass(CheckContext(done))));
      sees := cancelled || done;
      threads := threads[t := if sees then Leaving else Inspecting];
    }

    method LeaveSlot(t: nat)
      requires Valid() && May(t, Pass(Release))
      modifies this`slot, this`threads
      ensures Valid()
      ensures State() == Next(setup, old(State()), Run(t, Pass(Release)))
    {
      hide Inv;
      NextOk(setup, State(), Run(t, Pass(Release)));
      slot := None;
      threads := threads[t := Dequeuing];
    }

    method LeaveQueue(t: nat)
      requires Valid() && May(t, Pass(Dequeue))
      modifies this`queue, this`threads
      ensures Valid()
      ensures State() == Next(setup, old(State()), Run(t, Pass(Dequeue)))
    {
      hide Inv;
      NextOk(setup, State(), Run(t, Pass(Dequeue)));
      queue := queue - 1;
      threads := threads[t := Outside];
    }

    // --- with the slot --------------------------------------------------------

    method NoteCrash()
      modifies this`fallback
      ensures fallback == Crashed(setup, old(State()))
      ensures fallback == (old(fallback) || (setup.mode == Auto && selected == Some(Cuda)))
    {
      if setup.mode == Auto && selected == Some(Cuda) { fallback := true; }
    }

    method CloseOwned()
      modifies this`worker, this`workers
      ensures worker == None && workers == CloseAt(old(workers), old(worker))
    {
      workers := CloseAt(workers, worker);
      worker := None;
    }

    method IsAlive() returns (alive: bool)
      ensures alive <==> Alive(State())
    {
      alive := worker.Some? && worker.value < |workers| && workers[worker.value].alive;
    }

    method EnsureWorker(t: nat)
      requires Valid() && May(t, Do(Inspect))
      modifies this`worker, this`workers, this`fallback, this`threads
      ensures Valid()
      ensures State() == Next(setup, old(State()), Run(t, Do(Inspect)))
    {
      hide Loaded, Retries, Inv, GateReady, GateTarget, GateEffect, CloseReady, CloseTarget, CloseEffect, Ready,
           CloseAt, Alive;
      ghost var before := State();
      NextOk(setup, before, Run(t, Do(Inspect)));
      var alive := IsAlive();
      if alive {
        threads := threads[t := Prepared];
      } else {
        if worker.Some? {
          CloseOwned();
          NoteCrash();
        }
        threads := threads[t := Loading(Preferred(setup, fallback))];
      }
    }

    // device, loaded, ok are the locals of the thread that loads.
    method FactoryReturned(t: nat, device: Device, made: bool, ok: bool) returns (loaded: Option<nat>)
      requires t < |threads| && threads[t] == Loading(device)
      requires Valid() && May(t, Do(FactoryReturns(made, ok)))
      modifies this`workers, this`threads
      ensures Valid()
      ensures State() == Next(setup, old(State()), Run(t, Do(FactoryReturns(made, ok))))
      ensures threads[t] == Holding(loaded, device, ok)
    {
      hide Inv, GateReady, GateTarget, GateEffect, CloseReady, CloseTarget, CloseEffect;
      NextOk(setup, State(), Run(t, Do(FactoryReturns(made, ok))));
      loaded := None;
      if made {
        loaded := Some(|workers|);
        workers := workers + [Worker(device, true, false)];
      }
      threads := threads[t := Holding(loaded, device, ok)];
    }

    method SettleLoad(t: nat, loaded: Option<nat>, device: Device, ok: bool, done: bool) returns (again: bool)
      requires t < |threads| && threads[t] == Holding(loaded, device, ok)
      requires Valid() && May(t, Do(Settle(done)))
      modifies this`worker, this`workers, this`selected, this`fallback, this`threads
      ensures Valid()
      ensures State() == Next(setup, old(State()), Run(t, Do(Settle(done))))
      ensures again <==> !ok && setup.mode == Auto && device == Cuda && !done
    {
      hide Inv, Next, Enabled, CloseAt;
      ghost var before := State();
      LoadEnds(setup, before, t, loaded, device, ok, done);
      NextOk(setup, before, Run(t, Do(Settle(done))));
      again := !ok && setup.mode == Auto && device == Cuda && !done;
      if ok && !done { Own(t, loaded, device); } else { Refuse(t, loaded, again); }
    }

    method Own(t: nat, loaded: Option<nat>, device: Device)
      requires t < |threads|
      modifies this`worker, this`selected, this`threads
      ensures State() == old(State()).(worker := loaded, selected := Some(device),
                                       threads := old(threads)[t := Prepared])
    {
      worker, selected := loaded, Some(device);
      threads := threads[t := Prepared];
    }

    // The worker of a load that failed or came too late is closed.
    method Refuse(t: nat, loaded: Option<nat>, again: bool)
      requires t < |threads|
      modifies this`workers, this`fallback, this`threads
      ensures State() == old(State()).(workers := CloseAt(old(workers), loaded), fallback := old(fallback) || again,
                                       threads := old(threads)[t := if again then Loading(Cpu) else Leaving])
    {
      hide CloseAt;
      workers := CloseAt(workers, loaded);
      if again { fallback := true; }
      threads := threads[t := if again then Loading(Cpu) else Leaving];
    }

    method BeginInference(t: nat)
      requires Valid() && May(t, Do(Infer))
      modifies this`threads
      ensures Valid()
      ensures State() == Next(setup, old(State()), Run(t, Do(Infer)))
    {
      hide Inv, GateReady, GateTarget, GateEffect, CloseReady, CloseTarget, CloseEffect;
      NextOk(setup, State(), Run(t, Do(Infer)));
      threads := threads[t := Inferring];
    }

    method EndInference(t: nat, ok: bool)
      requires Valid() && May(t, Do(InferenceEnds(ok)))
      modifies this`threads
      ensures Valid()
      ensures State() == Next(setup, old(State()), Run(t, Do(InferenceEnds(ok))))
    {
      hide Inv, GateReady, GateTarget, GateEffect, CloseReady, CloseTarget, CloseEffect;
      NextOk(setup, State(), Run(t, Do(InferenceEnds(ok))));
      threads := threads[t := if ok then Leaving else Failed];
    }

    method DropWorker(t: nat, wasCancelled: bool)
      requires Valid() && May(t, Do(Discard(wasCancelled)))
      modifies this`worker, this`workers, this`fallback, this`threads
      ensures Valid()
      ensures State() == Next(setup, old(State()), Run(t, Do(Discard(wasCancelled))))
    {
      hide Inv, GateReady, GateTarget, GateEffect, CloseReady, CloseTarget, CloseEffect;
      NextOk(setup, State(), Run(t, Do(Discard(wasCancelled))));
      CloseOwned();
      if !wasCancelled { NoteCrash(); }
      threads := threads[t := Leaving];
    }

    // --- Close ----------------------------------------------------------------

    method MarkClosed(t: nat) returns (first: bool)
      requires Valid() && May(t, Shutdown(Begin))
      modifies this`closed, this`threads
      ensures Valid()
      ensures State() == Next(setup, old(State()), Run(t, Shutdown(Begin)))
      ensures first <==> !old(closed)
    {
      hide Inv;
      NextOk(setup, State(), Run(t, Shutdown(Begin)));
      first := !closed;
      closed := true;
      threads := threads[t := if first then Closing else AwaitingClose];
    }

    method CancelRoot(t: nat)
      requires Valid() && May(t, Shutdown(Cancel))
      modifies this`cancelled, this`threads
      ensures Valid()
      ensures State() == Next(setup, old(State()), Run(t, Shutdown(Cancel)))
    {
      hide Inv;
      NextOk(setup, State(), Run(t, Shutdown(Cancel)));
      cancelled := true;
      threads := threads[t := AwaitingSlot];
    }

    method TakeSlotToClose(t: nat)
      requires Valid() && May(t, Shutdown(Take))
      modifies this`slot, this`threads
      ensures Valid()
      ensures State() == Next(setup, old(State()), Run(t, Shutdown(Take)))
    {
      hide Inv;
      NextOk(setup, State(), Run(t, Shutdown(Take)));
      slot := Some(t);
      threads := threads[t := Shutting];
    }

    method CloseWorker(t: nat)
      requires Valid() && May(t, Shutdown(Kill))
      modifies this`worker, this`workers, this`threads
      ensures Valid()
      ensures State() == Next(setup, old(State()), Run(t, Shutdown(Kill)))
    {
      hide Inv;
      NextOk(setup, State(), Run(t, Shutdown(Kill)));
      if worker.Some? { CloseOwned(); }
      threads := threads[t := ReleasingShut];
    }

    method LeaveSlotClosed(t: nat)
      requires Valid() && May(t, Shutdown(Drop))
      modifies this`slot, this`threads
      ensures Valid()
      ensures State() == Next(setup, old(State()), Run(t, Shutdown(Drop)))
    {
      hide Inv;
      NextOk(setup, State(), Run(t, Shutdown(Drop)));
      slot := None;
      threads := threads[t := Finished];
    }

    // Every other closer waits for this report; from here on the runtime is dead.
    method ReportClosed(t: nat)
      requires Valid() && May(t, Shutdown(Report))
      modifies this`closeDone, this`threads
      ensures Valid()
      ensures State() == Next(setup, old(State()), Run(t, Shutdown(Report)))
      ensures Dead(State())
    {
      hide Inv;
      NextOk(setup, State(), Run(t, Shutdown(Report)));
      closeDone := true;
      threads := threads[t := Outside];
      InvDead(setup, State());
    }
  }
}
