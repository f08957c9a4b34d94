// The ways through the recogniser's runtime: a client that is served, one that is
// turned away, an inference that breaks, a load that comes too late, and a close.
module SttPaths {
  import opened Options
  import opened SttRuntime

  function One(t: nat, m: Move): seq<Step> { [Run(t, m)] }

  // Into the runtime and up to the owned worker.
  function Inward(t: nat): seq<Step> {
    [Run(t, Pass(Enter)), Run(t, Pass(Admit)), Run(t, Pass(Acquire)), Run(t, Pass(CheckClosed)),
     Run(t, Pass(CheckContext(false))), Run(t, Do(Inspect))]
  }

  function Outward(t: nat): seq<Step> { [Run(t, Pass(Release)), Run(t, Pass(Dequeue))] }

  // The door is open, nobody is at work, and a worker lives.
  ghost predicate Serving(u: Setup, s: State, t: nat) {
    && Inv(u, s) && s.initialized && !s.closed && !s.cancelled && s.slot == None && s.queue < u.capacity
    && t < |s.threads| && s.threads[t] == Outside
    && s.worker.Some? && s.worker.value < |s.workers| && s.workers[s.worker.value].alive
  }

  // What one thread does is seen step by step.
  lemma RunOne(u: Setup, s: State, e: Step, rest: seq<Step>)
    requires Enabled(s, e)
    ensures Execute(u, s, [e] + rest) == Execute(u, Next(u, s, e), rest)
  {
    assert ([e] + rest)[1..] == rest;
  }

  // The door: turned away when the runtime is closed or never came up, and when the
  // queue is full.
  lemma Doors(u: Setup, s: State, t: nat)
    requires t < |s.threads|
    ensures s.threads[t] == Outside ==>
              Next(u, s, Run(t, Pass(Enter))) ==
              if s.closed || !s.initialized then s.(threads := s.threads[t := Outside])
              else s.(threads := s.threads[t := Available])
    ensures s.threads[t] == Available ==>
              Next(u, s, Run(t, Pass(Admit))) ==
              if s.queue >= u.capacity then s.(threads := s.threads[t := Outside])
              else s.(queue := s.queue + 1, threads := s.threads[t := Queued])
    ensures s.threads[t] == Queued ==>
              && (Enabled(s, Run(t, Pass(Acquire))) <==> s.slot == None)
              && (s.slot == None ==>
                    Next(u, s, Run(t, Pass(Acquire))) == s.(slot := Some(t), threads := s.threads[t := Slotted]))
              && Next(u, s, Run(t, Pass(GiveUp))) == s.(threads := s.threads[t := Dequeuing])
  {
    hide WorkReady, WorkTarget, WorkEffect, CloseReady, CloseTarget, CloseEffect;
  }

  // With the slot: nothing is begun once the runtime closes or the context is over.
  lemma Checks(u: Setup, s: State, t: nat, done: bool)
    requires t < |s.threads|
    ensures s.threads[t] == Slotted ==>
              Next(u, s, Run(t, Pass(CheckClosed))) ==
                s.(threads := s.threads[t := if s.closed then Leaving else SawOpen])
    ensures s.threads[t] == SawOpen ==>
              Next(u, s, Run(t, Pass(CheckContext(done)))) ==
              s.(threads := s.threads[t := if s.cancelled || done then Leaving else Inspecting])
    ensures s.threads[t] == Leaving ==>
              Next(u, s, Run(t, Pass(Release))) == s.(slot := None, threads := s.threads[t := Dequeuing])
    ensures s.threads[t] == Dequeuing && s.queue > 0 ==>
              Next(u, s, Run(t, Pass(Dequeue))) == s.(queue := s.queue - 1, threads := s.threads[t := Outside])
  {
    hide WorkReady, WorkTarget, WorkEffect, CloseReady, CloseTarget, CloseEffect;
  }

  // Every worker but this one is as it was, and this one is closed.
  predicate Shuts(before: seq<Worker>, after: seq<Worker>, w: Option<nat>) {
    |after| == |before| && forall i | 0 <= i < |before| ::
      after[i] == if w == Some(i) then before[i].(closed := true) else before[i]
  }

  // A living worker is used; a dead one is closed, and a new one is loaded.
  lemma Inspects(u: Setup, s: State, t: nat)
    requires t < |s.threads| && s.threads[t] == Inspecting
    ensures var n := Next(u, s, Run(t, Do(Inspect)));
            if s.worker.Some? && s.worker.value < |s.workers| && s.workers[s.worker.value].alive
            then n == s.(threads := s.threads[t := Prepared])
            else
              && n.worker == None && Shuts(s.workers, n.workers, s.worker) && n.selected == s.selected
              && t < |n.threads| && n.threads[t].Loading? && n.threads == s.threads[t := n.threads[t]]
  {
    hide GateReady, GateTarget, GateEffect, CloseReady, CloseTarget, CloseEffect;
  }

  // A load that succeeds in time is owned and used; one that fails or comes too late
  // is closed, and a failure on cuda is retried on the cpu in automatic mode.
  lemma Settles(u: Setup, s: State, t: nat, done: bool)
    requires t < |s.threads| && s.threads[t].Holding?
    ensures var n, h := Next(u, s, Run(t, Do(Settle(done)))), s.threads[t];
            if h.ok && !done
            then n == s.(worker := h.worker, selected := Some(h.device), threads := s.threads[t := Prepared])
            else
              && Shuts(s.workers, n.workers, h.worker) && n.worker == s.worker && n.selected == s.selected
              && n.threads == s.threads[t := if !done && u.mode == Auto && h.device == Cuda then Loading(Cpu)
                                             else Leaving]
  {
    hide GateReady, GateTarget, GateEffect, CloseReady, CloseTarget, CloseEffect;
  }

  // An inference that ends well keeps its worker; one that fails or is cancelled
  // costs it.
  lemma Infers(u: Setup, s: State, t: nat, ok: bool, cancelled: bool)
    requires t < |s.threads|
    ensures s.threads[t] == Prepared ==>
              Next(u, s, Run(t, Do(Infer))) == s.(threads := s.threads[t := Inferring])
    ensures s.threads[t] == Inferring ==>
              Next(u, s, Run(t, Do(InferenceEnds(ok)))) == s.(threads := s.threads[t := if ok then Leaving else Failed])
    ensures s.threads[t] == Failed ==>
              var n := Next(u, s, Run(t, Do(Discard(cancelled))));
              n.worker == None && Shuts(s.workers, n.workers, s.worker) && n.threads == s.threads[t := Leaving]
  {
    hide GateReady, GateTarget, GateEffect, CloseReady, CloseTarget, CloseEffect;
  }

  // Nobody returns from Close before the worker is dealt with.
  lemma CloseReturnsDead(u: Setup, s: State, t: nat, m: Close)
    requires Inv(u, s) && t < |s.threads| && CloseReady(s, s.threads[t], m)
    requires Next(u, s, Run(t, Shutdown(m))).threads[t] == Outside
    ensures Next(u, s, Run(t, Shutdown(m))).closeDone && Dead(Next(u, s, Run(t, Shutdown(m))))
  {
    var n := Next(u, s, Run(t, Shutdown(m)));
    NextOk(u, s, Run(t, Shutdown(m)));
    assert n.closeDone by { hide Inv; }
    hide Inv, Next;
    InvDead(u, n);
  }

  // A client that comes to a runtime at rest reaches its worker, infers on it, and
  // leaves everything as it was.
  lemma Served(u: Setup, s: State, t: nat)
    requires Serving(u, s, t)
    ensures Execute(u, s, Inward(t) + One(t, Do(Infer))) ==
            Some(s.(slot := Some(t), queue := s.queue + 1, threads := s.threads[t := Inferring]))
    ensures Execute(u, s, Inward(t) + One(t, Do(Infer)) + One(t, Do(InferenceEnds(true))) + Outward(t)) == Some(s)
  {
    hide Inv, Next, Enabled;
    Reaches(u, s, t);
    var a := s.(slot := Some(t), queue := s.queue + 1, threads := s.threads[t := Prepared]);
    var b := a.(threads := s.threads[t := Inferring]);
    assert One(t, Do(Infer)) + [] == One(t, Do(Infer)) && b.threads == a.threads[t := Inferring];
    Infers(u, a, t, true, false);
    Possible(a, t);
    RunOne(u, a, Run(t, Do(Infer)), []);
    ExecuteJoin(u, s, Inward(t), One(t, Do(Infer)));
    var rest := One(t, Do(InferenceEnds(true))) + Outward(t);
    LeavesAgain(u, s, t);
    ExecuteJoin(u, s, Inward(t) + One(t, Do(Infer)), rest);
    assert Inward(t) + One(t, Do(Infer)) + rest
        == Inward(t) + One(t, Do(Infer)) + One(t, Do(InferenceEnds(true))) + Outward(t);
  }

  // What is enabled where a thread stands.
  lemma Possible(s: State, t: nat)
    requires t < |s.threads|
    ensures s.threads[t] == Outside ==> Enabled(s, Run(t, Pass(Enter)))
    ensures s.threads[t] == Available ==> Enabled(s, Run(t, Pass(Admit)))
    ensures s.threads[t] == Slotted ==> Enabled(s, Run(t, Pass(CheckClosed)))
    ensures s.threads[t] == SawOpen ==> Enabled(s, Run(t, Pass(CheckContext(false))))
    ensures s.threads[t] == Inspecting ==> Enabled(s, Run(t, Do(Inspect)))
    ensures s.threads[t] == Prepared ==> Enabled(s, Run(t, Do(Infer)))
    ensures s.threads[t] == Inferring ==> Enabled(s, Run(t, Do(InferenceEnds(true))))
    ensures s.threads[t] == Leaving ==> Enabled(s, Run(t, Pass(Release)))
    ensures s.threads[t] == Dequeuing && s.queue > 0 ==> Enabled(s, Run(t, Pass(Dequeue)))
  {
  }

  lemma LeavesAgain(u: Setup, s: State, t: nat)
    requires t < |s.threads| && s.threads[t] == Outside && s.slot == None
    ensures Execute(u, s.(slot := Some(t), queue := s.queue + 1, threads := s.threads[t := Inferring]),
                    One(t, Do(InferenceEnds(true))) + Outward(t)) == Some(s)
  {
    hide Next, Enabled;
    var b := s.(slot := Some(t), queue := s.queue + 1, threads := s.threads[t := Inferring]);
    var d := b.(threads := s.threads[t := Leaving]);
    var e := s.(queue := s.queue + 1, threads := s.threads[t := Dequeuing]);
    assert d.threads == b.threads[t := Leaving] && e.threads == d.threads[t := Dequeuing];
    assert e.threads[t := Outside] == s.threads;
    Infers(u, b, t, true, false);
    Checks(u, d, t, false);
    Checks(u, e, t, false);
    Possible(b, t);
    Possible(d, t);
    Possible(e, t);
    RunOne(u, b, Run(t, Do(InferenceEnds(true))), Outward(t));
    assert Outward(t) == [Run(t, Pass(Release))] + ([Run(t, Pass(Dequeue))] + []);
    RunOne(u, d, Run(t, Pass(Release)), [Run(t, Pass(Dequeue))] + []);
    RunOne(u, e, Run(t, Pass(Dequeue)), []);
  }

  lemma {:induction false} ExecuteJoin(u: Setup, s: State, a: seq<Step>, b: seq<Step>)
    ensures Execute(u, s, a + b) == match Execute(u, s, a) case None => None case Some(n) => Execute(u, n, b)
    decreases |a|
  {
    hide Next, Enabled;
    if a == [] {
      assert a + b == b;
    } else {
      assert (a + b)[0] == a[0] && (a + b)[1..] == a[1..] + b;
      if Enabled(s, a[0]) { ExecuteJoin(u, Next(u, s, a[0]), a[1..], b); }
    }
  }

  lemma Reaches(u: Setup, s: State, t: nat)
    requires Serving(u, s, t)
    ensures Execute(u, s, Inward(t)) ==
            Some(s.(slot := Some(t), queue := s.queue + 1, threads := s.threads[t := Prepared]))
  {
    hide Inv, Next, Enabled;
    var a := s.(threads := s.threads[t := Available]);
    var b := s.(queue := s.queue + 1, threads := s.threads[t := Queued]);
    var q := s.(queue := s.queue + 1, slot := Some(t));
    var d, e, f := q.(threads := s.threads[t := Slotted]), q.(threads := s.threads[t := SawOpen]),
                   q.(threads := s.threads[t := Inspecting]);
    assert b.threads == a.threads[t := Queued] && d.threads == b.threads[t := Slotted];
    assert e.threads == d.threads[t := SawOpen] && f.threads == e.threads[t := Inspecting];
    assert f.threads[t := Prepared] == s.threads[t := Prepared];
    Doors(u, s, t);
    Doors(u, a, t);
    Doors(u, b, t);
    Checks(u, d, t, false);
    Checks(u, e, t, false);
    Inspects(u, f, t);
    Possible(s, t);
    Possible(a, t);
    Possible(d, t);
    Possible(e, t);
    Possible(f, t);
    Unrolled(u, s, t, a, b, d, e, f);
  }

  lemma Unrolled(u: Setup, s: State, t: nat, a: State, b: State, d: State, e: State, f: State)
    requires Enabled(s, Run(t, Pass(Enter))) && Next(u, s, Run(t, Pass(Enter))) == a
    requires Enabled(a, Run(t, Pass(Admit))) && Next(u, a, Run(t, Pass(Admit))) == b
    requires Enabled(b, Run(t, Pass(Acquire))) && Next(u, b, Run(t, Pass(Acquire))) == d
    requires Enabled(d, Run(t, Pass(CheckClosed))) && Next(u, d, Run(t, Pass(CheckClosed))) == e
    requires Enabled(e, Run(t, Pass(CheckContext(false)))) && Next(u, e, Run(t, Pass(CheckContext(false)))) == f
    requires Enabled(f, Run(t, Do(Inspect)))
    ensures Execute(u, s, Inward(t)) == Some(Next(u, f, Run(t, Do(Inspect))))
  {
    hide Next, Enabled;
    var steps := Inward(t);
    assert steps == [steps[0]] + ([steps[1]] + ([steps[2]] + ([steps[3]] + ([steps[4]] + ([steps[5]] + [])))));
    RunOne(u, s, steps[0], [steps[1]] + ([steps[2]] + ([steps[3]] + ([steps[4]] + ([steps[5]] + [])))));
    RunOne(u, a, steps[1], [steps[2]] + ([steps[3]] + ([steps[4]] + ([steps[5]] + []))));
    RunOne(u, b, steps[2], [steps[3]] + ([steps[4]] + ([steps[5]] + [])));
    RunOne(u, d, steps[3], [steps[4]] + ([steps[5]] + []));
    RunOne(u, e, steps[4], [steps[5]] + []);
    RunOne(u, f, steps[5], []);
  }
}
