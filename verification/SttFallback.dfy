// When automatic mode gives up cuda: exactly when a load on it failed in time or a
// worker on it broke down, and then for good.
module SttFallback {
  import opened Options
  import opened SttRuntime

  // The first load of the constructor failed, and not for want of time.
  predicate BootFails(u: Setup, first: Attempt) { u.mode == Auto && !(first.made && first.ok) && !first.done }

  // The thread with the slot finds the owned worker dead, discards it after an
  // inference that nobody cancelled, or sees a load fail that nobody cancelled.
  predicate Fails(u: Setup, s: State, e: Step)
    requires Enabled(s, e)
  {
    u.mode == Auto && e.Run? && e.move.Do? &&
    match e.move.work
    case Inspect =>
      s.selected == Some(Cuda) && s.worker.Some? && s.worker.value < |s.workers| && !s.workers[s.worker.value].alive
    case Discard(cancelled) => s.selected == Some(Cuda) && !cancelled
    case Settle(done) => s.threads[e.t].device == Cuda && !s.threads[e.t].ok && !done
    case _ => false
  }

  predicate FailsIn(u: Setup, s: State, run: seq<Step>)
    decreases |run|
  {
    run != [] && Enabled(s, run[0]) && (Fails(u, s, run[0]) || FailsIn(u, Next(u, s, run[0]), run[1..]))
  }

  lemma WorkFallback(u: Setup, s: State, t: nat, w: Work)
    requires Inv(u, s) && Enabled(s, Run(t, Do(w))) && u.mode == Auto
    ensures WorkEffect(u, s, s.threads[t], w).fallback <==> s.fallback || Fails(u, s, Run(t, Do(w)))
  {
    assert s.worker.Some? ==> s.worker.value < |s.workers|;
    hide Inv, CloseAt;
  }

  lemma StepFallback(u: Setup, s: State, e: Step)
    requires Inv(u, s) && Enabled(s, e) && u.mode == Auto
    ensures Next(u, s, e).fallback <==> s.fallback || Fails(u, s, e)
  {
    hide Inv, WorkEffect, WorkTarget, GateTarget, CloseTarget, CloseAt;
    if e.Run? && e.move.Do? { WorkFallback(u, s, e.t, e.move.work); }
  }

  lemma {:induction false} RunFallback(u: Setup, s: State, run: seq<Step>)
    requires Inv(u, s) && u.mode == Auto && Execute(u, s, run).Some?
    ensures Execute(u, s, run).value.fallback <==> s.fallback || FailsIn(u, s, run)
    decreases |run|
  {
    hide Inv, Next, Enabled, Fails;
    if run != [] {
      NextOk(u, s, run[0]);
      StepFallback(u, s, run[0]);
      RunFallback(u, Next(u, s, run[0]), run[1..]);
    }
  }

  lemma BootFallback(u: Setup, clients: nat, first: Attempt, second: Attempt)
    requires u.mode == Auto
    ensures Boot(u, clients, first, second).fallback <==> BootFails(u, first)
  {
  }

  // Automatic mode loads on cuda as long as nothing went wrong on it, and on the
  // cpu ever after. A cancelled inference or load counts for nothing.
  lemma LoadsCudaExact(u: Setup, clients: nat, first: Attempt, second: Attempt, run: seq<Step>, s: State, t: nat)
    requires u.mode == Auto && Execute(u, Boot(u, clients, first, second), run) == Some(s)
    requires t < |s.threads| && s.threads[t].Loading?
    ensures s.threads[t].device == Cuda <==>
            !BootFails(u, first) && !FailsIn(u, Boot(u, clients, first, second), run)
  {
    hide Boot, Execute, BootFails, FailsIn, CloserOk, Shut, Gone, WorkersOk, ClientsOk, Count;
    BootOk(u, clients, first, second);
    BootFallback(u, clients, first, second);
    RunFallback(u, Boot(u, clients, first, second), run);
    RunOk(u, Boot(u, clients, first, second), run);
    assert Holder(s.slot, s.threads) == s.threads[t] by { assert InSlot(s.threads[t]); }
  }

  lemma {:induction false} ExecuteConcat(u: Setup, s: State, a: seq<Step>, b: seq<Step>)
    requires Execute(u, s, a).Some?
    ensures Execute(u, s, a + b) == Execute(u, Execute(u, s, a).value, b)
    ensures FailsIn(u, s, a + b) <==> FailsIn(u, s, a) || FailsIn(u, Execute(u, s, a).value, b)
    decreases |a|
  {
    hide Next, Enabled, Fails;
    if a == [] {
      assert a + b == b;
    } else {
      assert (a + b)[0] == a[0] && (a + b)[1..] == a[1..] + b;
      ExecuteConcat(u, Next(u, s, a[0]), a[1..], b);
    }
  }

  // One crash is enough: whatever happens afterwards, nobody loads on cuda again.
  lemma CrashIsFinal(u: Setup, clients: nat, first: Attempt, second: Attempt, run: seq<Step>, s: State, e: Step,
      later: seq<Step>, z: State, t: nat)
    requires Execute(u, Boot(u, clients, first, second), run) == Some(s) && Enabled(s, e) && Fails(u, s, e)
    requires Execute(u, Next(u, s, e), later) == Some(z) && t < |z.threads| && z.threads[t].Loading?
    ensures z.threads[t].device == Cpu
  {
    var boot := Boot(u, clients, first, second);
    assert ([e] + later)[0] == e && ([e] + later)[1..] == later;
    assert Execute(u, s, [e] + later) == Some(z) && FailsIn(u, s, [e] + later) && u.mode == Auto;
    hide Boot, Execute, FailsIn, Fails, Next, Enabled;
    ExecuteConcat(u, boot, run, [e] + later);
    LoadsCudaExact(u, clients, first, second, run + ([e] + later), z, t);
  }
}
