// The speech recogniser's runtime: any number of clients share one slot, one
// bounded queue, one worker process and one shutdown. Each step is what one
// thread does between two points where others may run.
module SttRuntime {
  import opened Options

  datatype Device = Cuda | Cpu

  datatype Mode = Auto | Fixed(device: Device)

  datatype Setup = Setup(mode: Mode, capacity: nat)

  // Every worker the factory ever returned. alive: its process still answers.
  datatype Worker = Worker(device: Device, alive: bool, closed: bool)

  // Where a thread is. Clients: Outside to Dequeuing; closers: Closing to Finished.
  datatype Pc =
    | Outside
    | Available                                            // saw the runtime initialised and open
    | Queued                                               // holds a queue place, waits for the slot
    | Slotted                                              // holds the slot
    | SawOpen                                              // with the slot, saw the runtime open
    | Inspecting                                           // its context still runs
    | Loading(device: Device)                              // the factory is running
    | Holding(worker: Option<nat>, device: Device, ok: bool) // the factory returned, possibly a worker and an error
    | Prepared                                             // a worker is owned
    | Inferring
    | Failed                                               // the inference failed or was cancelled
    | Leaving                                              // about to release the slot
    | Dequeuing                                            // about to release its queue place
    | Closing                                              // marked the runtime closed
    | AwaitingSlot                                         // cancelled the root context
    | Shutting                                             // holds the slot, will close the worker
    | ReleasingShut                                        // closed the worker, holds the slot
    | Finished                                             // about to report the close done
    | AwaitingClose                                        // another closer is at it

  datatype State = State(closed: bool, cancelled: bool, initialized: bool, worker: Option<nat>, workers: seq<Worker>,
                         fallback: bool, selected: Option<Device>, slot: Option<nat>, queue: nat, closeDone: bool,
                         threads: seq<Pc>)

  // Getting in and out: the closed check, the queue, the slot.
  datatype Gate = Enter | Admit | Acquire | GiveUp | CheckClosed | CheckContext(done: bool) | Release | Dequeue

  // With the slot: load when needed, infer, discard after a failure.
  datatype Work =
    | Inspect
    | FactoryReturns(made: bool, ok: bool)
    | Settle(done: bool)
    | Infer
    | InferenceEnds(ok: bool)
    | Discard(cancelled: bool)

  datatype Close = Begin | Cancel | Take | Kill | Drop | Report | Awaited

  datatype Move = Pass(gate: Gate) | Do(work: Work) | Shutdown(close: Close)

  datatype Step = Run(t: nat, move: Move) | WorkerDies(w: nat)

  // --- pieces of the runtime --------------------------------------------------

  function CloseAt(workers: seq<Worker>, w: Option<nat>): seq<Worker> {
    if w.Some? && w.value < |workers| then workers[w.value := workers[w.value].(closed := true)] else workers
  }

  // The device of the next load: a fixed one, or cuda until it failed once.
  function Preferred(u: Setup, fallback: bool): Device {
    match u.mode
    case Fixed(d) => if fallback then Cpu else d
    case Auto => if fallback then Cpu else Cuda
  }

  // A crash in auto mode on cuda gives up on cuda.
  function Crashed(u: Setup, s: State): bool { s.fallback || (u.mode == Auto && s.selected == Some(Cuda)) }

  predicate Alive(s: State) { s.worker.Some? && s.worker.value < |s.workers| && s.workers[s.worker.value].alive }

  // The load went through; overtaken: its context ended meanwhile.
  predicate Loaded(h: Pc, overtaken: bool)
    requires h.Holding?
  {
    h.ok && !overtaken
  }

  // A failed load on cuda is retried once on the cpu, in auto mode only.
  predicate Retries(u: Setup, h: Pc, overtaken: bool)
    requires h.Holding?
  {
    !Loaded(h, overtaken) && u.mode == Auto && h.device == Cuda && !overtaken
  }

  // --- one step ---------------------------------------------------------------

  predicate GateReady(s: State, pc: Pc, m: Gate) {
    match m
    case Enter => pc == Outside
    case Admit => pc == Available
    case Acquire => pc == Queued && s.slot == None
    case GiveUp => pc == Queued
    case CheckClosed => pc == Slotted
    case CheckContext(_) => pc == SawOpen
    case Release => pc == Leaving
    case Dequeue => pc == Dequeuing && s.queue > 0
  }

  predicate WorkReady(pc: Pc, m: Work) {
    match m
    case Inspect => pc == Inspecting
    case FactoryReturns(made, ok) => pc.Loading? && (ok ==> made)
    case Settle(_) => pc.Holding?
    case Infer => pc == Prepared
    case InferenceEnds(_) => pc == Inferring
    case Discard(_) => pc == Failed
  }

  predicate CloseReady(s: State, pc: Pc, m: Close) {
    match m
    case Begin => pc == Outside
    case Cancel => pc == Closing
    case Take => pc == AwaitingSlot && s.slot == None
    case Kill => pc == Shutting
    case Drop => pc == ReleasingShut
    case Report => pc == Finished
    case Awaited => pc == AwaitingClose && s.closeDone
  }

  // Where the moving thread goes.
  function GateTarget(u: Setup, s: State, m: Gate): Pc {
    match m
    case Enter => if s.closed || !s.initialized then Outside else Available
    case Admit => if s.queue >= u.capacity then Outside else Queued
    case Acquire => Slotted
    case GiveUp => Dequeuing
    case CheckClosed => if s.closed then Leaving else SawOpen
    case CheckContext(done) => if s.cancelled || done then Leaving else Inspecting
    case Release => Dequeuing
    case Dequeue => Outside
  }

  function WorkTarget(u: Setup, s: State, pc: Pc, m: Work): Pc
    requires WorkReady(pc, m)
  {
    match m
    case Inspect => if Alive(s) then Prepared
      else Loading(Preferred(u, if s.worker.Some? then Crashed(u, s) else s.fallback))
    case FactoryReturns(made, ok) => Holding(if made then Some(|s.workers|) else None, pc.device, ok)
    case Settle(done) => if Loaded(pc, done) then Prepared else if Retries(u, pc, done) then Loading(Cpu) else Leaving
    case Infer => Inferring
    case InferenceEnds(ok) => if ok then Leaving else Failed
    case Discard(_) => Leaving
  }

  function CloseTarget(s: State, m: Close): Pc {
    match m
    case Begin => if s.closed then AwaitingClose else Closing
    case Cancel => AwaitingSlot
    case Take => Shutting
    case Kill => ReleasingShut
    case Drop => Finished
    case Report => Outside
    case Awaited => Outside
  }

  // What it does to the shared state on the way.
  function GateEffect(u: Setup, s: State, t: nat, pc: Pc, m: Gate): State
    requires GateReady(s, pc, m)
  {
    match m
    case Admit => if s.queue >= u.capacity then s else s.(queue := s.queue + 1)
    case Acquire => s.(slot := Some(t))
    case Release => s.(slot := None)
    case Dequeue => s.(queue := s.queue - 1)
    case _ => s
  }

  function WorkEffect(u: Setup, s: State, pc: Pc, m: Work): State
    requires WorkReady(pc, m)
  {
    match m
    case Inspect =>
      if Alive(s) || s.worker == None then s
      else s.(workers := CloseAt(s.workers, s.worker), worker := None, fallback := Crashed(u, s))
    case FactoryReturns(made, _) => if made then s.(workers := s.workers + [Worker(pc.device, true, false)]) else s
    case Settle(done) =>
      if Loaded(pc, done) then s.(worker := pc.worker, selected := Some(pc.device))
      else s.(workers := CloseAt(s.workers, pc.worker), fallback := s.fallback || Retries(u, pc, done))
    case Discard(cancelled) =>
      s.(workers := CloseAt(s.workers, s.worker), worker := None,
         fallback := if cancelled then s.fallback else Crashed(u, s))
    case _ => s
  }

  function CloseEffect(s: State, t: nat, m: Close): State {
    match m
    case Begin => s.(closed := true)
    case Cancel => s.(cancelled := true)
    case Take => s.(slot := Some(t))
    case Kill => s.(workers := CloseAt(s.workers, s.worker), worker := None)
    case Drop => s.(slot := None)
    case Report => s.(closeDone := true)
    case Awaited => s
  }

  predicate Ready(s: State, pc: Pc, m: Move) {
    match m
    case Pass(g) => GateReady(s, pc, g)
    case Do(w) => WorkReady(pc, w)
    case Shutdown(c) => CloseReady(s, pc, c)
  }

  function Target(u: Setup, s: State, pc: Pc, m: Move): Pc
    requires Ready(s, pc, m)
  {
    match m
    case Pass(g) => GateTarget(u, s, g)
    case Do(w) => WorkTarget(u, s, pc, w)
    case Shutdown(c) => CloseTarget(s, c)
  }

  function Effect(u: Setup, s: State, t: nat, pc: Pc, m: Move): State
    requires Ready(s, pc, m)
  {
    match m
    case Pass(g) => GateEffect(u, s, t, pc, g)
    case Do(w) => WorkEffect(u, s, pc, w)
    case Shutdown(c) => CloseEffect(s, t, c)
  }

  predicate Enabled(s: State, e: Step) {
    match e
    case Run(t, m) => t < |s.threads| && Ready(s, s.threads[t], m)
    case WorkerDies(w) => w < |s.workers|
  }

  function Next(u: Setup, s: State, e: Step): State
    requires Enabled(s, e)
  {
    match e
    case Run(t, m) => Effect(u, s, t, s.threads[t], m).(threads := s.threads[t := Target(u, s, s.threads[t], m)])
    case WorkerDies(w) => s.(workers := s.workers[w := s.workers[w].(alive := false)])
  }

  // --- construction -----------------------------------------------------------

  // How one factory call of the constructor ends; done: its context ended meanwhile.
  datatype Attempt = Attempt(made: bool, ok: bool, done: bool)

  function Tried(s: State, device: Device, a: Attempt): State {
    if !a.made then s
    else if a.ok && !a.done then
      s.(workers := s.workers + [Worker(device, true, false)], worker := Some(|s.workers|), selected := Some(device),
         initialized := true)
    else s.(workers := s.workers + [Worker(device, true, true)])
  }

  function Blank(clients: nat): State {
    State(false, false, false, None, [], false, None, None, 0, false, seq(clients, _ => Outside))
  }

  // The first load happens before the runtime is shared.
  function Boot(u: Setup, clients: nat, first: Attempt, second: Attempt): State {
    var s := Tried(Blank(clients), Preferred(u, false), first);
    if s.initialized || u.mode != Auto || first.done then s
    else Tried(s.(fallback := true), Cpu, second)
  }

  // --- the invariant ----------------------------------------------------------

  // Past the closed check and not yet leaving: may load or infer.
  predicate Working(pc: Pc) {
    pc.SawOpen? || pc.Inspecting? || pc.Loading? || pc.Holding? || pc.Prepared? || pc.Inferring? || pc.Failed?
  }

  predicate InSlot(pc: Pc) { pc.Slotted? || Working(pc) || pc.Leaving? || pc.Shutting? || pc.ReleasingShut? }

  predicate InQueue(pc: Pc) { pc.Queued? || pc.Slotted? || Working(pc) || pc.Leaving? || pc.Dequeuing? }

  predicate Closer(pc: Pc) { pc.Closing? || pc.AwaitingSlot? || pc.Shutting? || pc.ReleasingShut? || pc.Finished? }

  function Count(threads: seq<Pc>): nat {
    if threads == [] then 0 else Count(threads[..|threads| - 1]) + if InQueue(threads[|threads| - 1]) then 1 else 0
  }

  // What the thread with the slot is doing.
  function Holder(slot: Option<nat>, threads: seq<Pc>): Pc {
    if slot.Some? && slot.value < |threads| then threads[slot.value] else Outside
  }

  ghost predicate SlotOk(slot: Option<nat>, threads: seq<Pc>) {
    && (slot.Some? ==> slot.value < |threads| && InSlot(threads[slot.value]))
    && (forall t | 0 <= t < |threads| && InSlot(threads[t]) :: slot == Some(t))
  }

  // The owned worker is open; any other open worker is in the hands of the thread
  // that has just loaded it.
  ghost predicate WorkersOk(holder: Pc, worker: Option<nat>, workers: seq<Worker>) {
    && (worker.Some? ==> worker.value < |workers| && !workers[worker.value].closed)
    && (forall w | 0 <= w < |workers| && !workers[w].closed ::
          worker == Some(w) || (holder.Holding? && holder.worker == Some(w)))
    && (holder.Loading? || holder.Holding? ==> worker == None)
    && (holder.Holding? && holder.ok ==> holder.worker.Some?)
    && (holder.Holding? && holder.worker.Some? ==>
          holder.worker.value < |workers| && !workers[holder.worker.value].closed)
    && (holder.Prepared? || holder.Inferring? || holder.Failed? ==> worker.Some?)
  }

  // At most one closer; it marked the runtime closed and has not reported yet.
  ghost predicate CloserOk(closed: bool, closeDone: bool, threads: seq<Pc>) {
    && (closeDone ==> closed)
    && (forall t | 0 <= t < |threads| && Closer(threads[t]) :: closed && !closeDone)
    && (forall t, r | 0 <= t < |threads| && 0 <= r < |threads| && Closer(threads[t]) && Closer(threads[r]) :: t == r)
    && (closed && !closeDone ==> SomeCloser(threads))
    && (!closed ==> forall t | 0 <= t < |threads| :: !threads[t].AwaitingClose?)
  }

  ghost predicate SomeCloser(threads: seq<Pc>) { exists t | 0 <= t < |threads| :: Closer(threads[t]) }

  // Close has dealt with the worker.
  ghost predicate Shut(closeDone: bool, threads: seq<Pc>) {
    closeDone || exists t | 0 <= t < |threads| :: Killed(threads[t])
  }

  predicate Killed(pc: Pc) { pc.ReleasingShut? || pc.Finished? }

  // Then nothing is left and nobody is past the closed check.
  ghost predicate Gone(holder: Pc, worker: Option<nat>, workers: seq<Worker>) {
    !Working(holder) && worker == None && forall w | 0 <= w < |workers| :: workers[w].closed
  }

  ghost predicate DeviceOk(u: Setup, fallback: bool, selected: Option<Device>, holder: Pc) {
    && (u.mode.Fixed? ==> !fallback && (selected == None || selected == Some(u.mode.device)))
    && (u.mode == Auto && selected == Some(Cpu) ==> fallback)
    && (holder.Loading? || holder.Holding? ==> holder.device == Preferred(u, fallback))
  }

  // Clients get in only once the first load went through.
  ghost predicate ClientsOk(initialized: bool, selected: Option<Device>, threads: seq<Pc>) {
    && (initialized ==> selected.Some?)
    && (!initialized ==> forall t | 0 <= t < |threads| :: !threads[t].Available? && !InQueue(threads[t]))
  }

  ghost predicate Inv(u: Setup, s: State) {
    && SlotOk(s.slot, s.threads)
    && WorkersOk(Holder(s.slot, s.threads), s.worker, s.workers)
    && CloserOk(s.closed, s.closeDone, s.threads)
    && (Shut(s.closeDone, s.threads) ==> Gone(Holder(s.slot, s.threads), s.worker, s.workers))
    && DeviceOk(u, s.fallback, s.selected, Holder(s.slot, s.threads))
    && ClientsOk(s.initialized, s.selected, s.threads)
    && s.queue == Count(s.threads) && s.queue <= u.capacity
  }

  // --- preservation -----------------------------------------------------------

  lemma {:induction false} CountUpdate(threads: seq<Pc>, t: nat, pc: Pc)
    requires t < |threads|
    ensures Count(threads[t := pc]) == Count(threads) - (if InQueue(threads[t]) then 1 else 0)
            + (if InQueue(pc) then 1 else 0)
    decreases |threads|
  {
    var n := |threads| - 1;
    if t == n {
      assert threads[t := pc][..n] == threads[..n];
    } else {
      assert threads[t := pc][..n] == threads[..n][t := pc];
      CountUpdate(threads[..n], t, pc);
    }
  }

  lemma {:induction false} CountNone(threads: seq<Pc>)
    requires forall t | 0 <= t < |threads| :: threads[t] == Outside
    ensures Count(threads) == 0
  {
    if threads != [] { CountNone(threads[..|threads| - 1]); }
  }

  lemma TriedOk(u: Setup, s: State, device: Device, a: Attempt)
    requires Inv(u, s) && s.worker == None && s.slot == None && !s.closed && device == Preferred(u, s.fallback)
    requires s.selected == None && !s.initialized
    ensures var n := Tried(s, device, a); Inv(u, n) && (!n.initialized ==> n.(workers := s.workers) == s)
  {
    hide Count;
  }

  lemma BlankOk(u: Setup, clients: nat)
    requires Count(Blank(clients).threads) == 0
    ensures Inv(u, Blank(clients))
  {
    hide Count;
  }

  // Before anybody shares the runtime, auto mode may give up on cuda.
  lemma FallbackOk(u: Setup, s: State)
    requires Inv(u, s) && u.mode == Auto && s.selected == None && s.slot == None
    ensures Inv(u, s.(fallback := true))
  {
    hide Count;
  }

  lemma BootOk(u: Setup, clients: nat, first: Attempt, second: Attempt)
    ensures Inv(u, Boot(u, clients, first, second))
  {
    hide SlotOk, WorkersOk, DeviceOk, ClientsOk, CloserOk, Shut, Count, Tried;
    var blank := Blank(clients);
    CountNone(blank.threads);
    BlankOk(u, clients);
    var s := Tried(blank, Preferred(u, false), first);
    TriedOk(u, blank, Preferred(u, false), first);
    if !s.initialized && u.mode == Auto && !first.done {
      var again := s.(fallback := true);
      FallbackOk(u, s);
      TriedOk(u, again, Cpu, second);
    }
  }

  // What the slot's holder is after a thread went from pc to next.
  function Passed(pc: Pc, next: Pc, holder: Pc): Pc {
    if InSlot(next) then next else if InSlot(pc) then Outside else holder
  }

  ghost predicate Fits(pc: Pc, next: Pc, holder: Pc) {
    && (InSlot(pc) ==> holder == pc)
    && (InSlot(next) && !InSlot(pc) ==> holder == Outside)
  }

  // Loading, or with a worker in hand.
  predicate Busy(pc: Pc) { pc.Loading? || pc.Holding? || pc.Prepared? || pc.Inferring? || pc.Failed? }

  ghost predicate SlotFits(before: Option<nat>, after: Option<nat>, t: nat, pc: Pc, next: Pc) {
    && (InSlot(next) && !InSlot(pc) ==> before == None && after == Some(t))
    && (InSlot(pc) && !InSlot(next) ==> after == None)
    && (InSlot(pc) == InSlot(next) ==> after == before)
  }

  // Each group of moves leaves the others' state alone.
  lemma GateState(u: Setup, s: State, t: nat, pc: Pc, m: Gate)
    requires GateReady(s, pc, m)
    ensures GateEffect(u, s, t, pc, m).(slot := s.slot, queue := s.queue) == s
    ensures GateEffect(u, s, t, pc, m).slot == if m.Acquire? then Some(t) else if m.Release? then None else s.slot
  {
    hide GateReady;
  }

  lemma GateSlot(u: Setup, s: State, t: nat, pc: Pc, m: Gate)
    requires GateReady(s, pc, m)
    ensures SlotFits(s.slot, if m.Acquire? then Some(t) else if m.Release? then None else s.slot, t, pc,
                     GateTarget(u, s, m))
  {
  }

  lemma GatePlaces(u: Setup, s: State, pc: Pc, m: Gate)
    requires GateReady(s, pc, m)
    ensures var next := GateTarget(u, s, m);
      && !Busy(pc) && !Busy(next) && !next.AwaitingClose? && !Closer(next) && !Closer(pc)
      && (Working(next) ==> Working(pc) || !s.closed)
      && (next.Available? ==> s.initialized)
      && (InQueue(next) ==> InQueue(pc) || pc.Available?)
  {
    hide SlotFits, InSlot;
  }

  lemma GateFrame(u: Setup, s: State, t: nat, pc: Pc, m: Gate)
    requires GateReady(s, pc, m)
    ensures GateEffect(u, s, t, pc, m).(slot := s.slot, queue := s.queue) == s
    ensures var next := GateTarget(u, s, m);
      && SlotFits(s.slot, GateEffect(u, s, t, pc, m).slot, t, pc, next)
      && !Busy(pc) && !Busy(next) && !next.AwaitingClose? && !Closer(next) && !Closer(pc)
      && (Working(next) ==> Working(pc) || !s.closed)
      && (next.Available? ==> s.initialized)
      && (InQueue(next) ==> InQueue(pc) || pc.Available?)
  {
    hide GateReady, GateEffect, GateTarget, Busy, Closer, Working, InQueue, SlotFits, InSlot;
    GateState(u, s, t, pc, m);
    GateSlot(u, s, t, pc, m);
    GatePlaces(u, s, pc, m);
  }

  lemma WorkState(u: Setup, s: State, pc: Pc, m: Work)
    requires WorkReady(pc, m)
    ensures var d := WorkEffect(u, s, pc, m);
      d.(worker := s.worker, workers := s.workers, fallback := s.fallback, selected := s.selected) == s
  {
    hide Preferred, Crashed, CloseAt, Alive;
  }

  lemma WorkFrame(u: Setup, s: State, t: nat, pc: Pc, m: Work)
    requires WorkReady(pc, m)
    ensures var d := WorkEffect(u, s, pc, m);
      d.(worker := s.worker, workers := s.workers, fallback := s.fallback, selected := s.selected) == s
    ensures var next := WorkTarget(u, s, pc, m);
      InQueue(next) && InSlot(next) && !Closer(next) && !next.AwaitingClose? && !next.Available?
    ensures Working(pc) && InSlot(pc) && InQueue(pc)
  {
    hide Preferred, Crashed, CloseAt, Alive, WorkEffect;
    WorkState(u, s, pc, m);
  }

  lemma CloseState(s: State, t: nat, pc: Pc, m: Close)
    requires CloseReady(s, pc, m)
    ensures CloseEffect(s, t, m).(closed := s.closed, cancelled := s.cancelled, slot := s.slot, worker := s.worker,
      workers := s.workers, closeDone := s.closeDone) == s
  {
    hide CloseAt, CloseReady;
  }

  lemma CloseFrame(s: State, t: nat, pc: Pc, m: Close)
    requires CloseReady(s, pc, m)
    ensures CloseEffect(s, t, m).(closed := s.closed, cancelled := s.cancelled, slot := s.slot, worker := s.worker,
      workers := s.workers, closeDone := s.closeDone) == s
    ensures SlotFits(s.slot, CloseEffect(s, t, m).slot, t, pc, CloseTarget(s, m))
    ensures !InQueue(pc) && !InQueue(CloseTarget(s, m)) && !CloseTarget(s, m).Available? && !Busy(pc)
  {
    hide CloseAt;
    CloseState(s, t, pc, m);
  }

  lemma SlotMove(u: Setup, s: State, t: nat, pc: Pc, m: Move)
    requires Ready(s, pc, m)
    ensures SlotFits(s.slot, Effect(u, s, t, pc, m).slot, t, pc, Target(u, s, pc, m))
  {
    hide GateReady, GateTarget, GateEffect, WorkReady, WorkTarget, WorkEffect, CloseReady, CloseTarget, CloseEffect,
         InSlot;
    match m
    case Pass(g) => GateFrame(u, s, t, pc, g);
    case Do(w) => WorkFrame(u, s, t, pc, w);
    case Shutdown(c) => CloseFrame(s, t, pc, c);
  }

  lemma SlotUpdate(slot: Option<nat>, threads: seq<Pc>, t: nat, next: Pc, after: Option<nat>)
    requires SlotOk(slot, threads) && t < |threads| && SlotFits(slot, after, t, threads[t], next)
    ensures SlotOk(after, threads[t := next])
    ensures Holder(after, threads[t := next]) == Passed(threads[t], next, Holder(slot, threads))
    ensures Fits(threads[t], next, Holder(slot, threads))
  {
    if InSlot(threads[t]) { assert slot == Some(t); }
  }

  lemma SlotStep(u: Setup, s: State, t: nat, m: Move)
    requires Enabled(s, Run(t, m)) && SlotOk(s.slot, s.threads)
    ensures var n := Next(u, s, Run(t, m)); var next := Target(u, s, s.threads[t], m);
      && SlotOk(n.slot, n.threads)
      && Holder(n.slot, n.threads) == Passed(s.threads[t], next, Holder(s.slot, s.threads))
      && Fits(s.threads[t], next, Holder(s.slot, s.threads))
  {
    hide SlotOk, Holder, Passed, Fits, Target, Effect, Ready, SlotFits;
    SlotMove(u, s, t, s.threads[t], m);
    SlotUpdate(s.slot, s.threads, t, Target(u, s, s.threads[t], m), Effect(u, s, t, s.threads[t], m).slot);
  }

  lemma QueueGate(u: Setup, s: State, t: nat, pc: Pc, m: Gate)
    requires GateReady(s, pc, m) && s.queue <= u.capacity
    ensures var next := GateTarget(u, s, m); var queue := GateEffect(u, s, t, pc, m).queue;
      && queue == s.queue + (if InQueue(next) then 1 else 0) - (if InQueue(pc) then 1 else 0)
      && queue <= u.capacity
  {
    match m
    case Enter =>
    case Admit =>
    case Acquire =>
    case Release =>
    case Dequeue =>
    case _ =>
  }

  lemma QueueMove(u: Setup, s: State, t: nat, pc: Pc, m: Move)
    requires Ready(s, pc, m) && s.queue <= u.capacity
    ensures var next := Target(u, s, pc, m); var queue := Effect(u, s, t, pc, m).queue;
      && queue == s.queue + (if InQueue(next) then 1 else 0) - (if InQueue(pc) then 1 else 0)
      && queue <= u.capacity
  {
    hide GateReady, GateTarget, GateEffect, WorkReady, WorkTarget, WorkEffect, CloseReady, CloseTarget, CloseEffect,
         SlotFits, InQueue;
    match m
    case Pass(g) => QueueGate(u, s, t, pc, g);
    case Do(w) => WorkFrame(u, s, t, pc, w);
    case Shutdown(c) => CloseFrame(s, t, pc, c);
  }

  // --- the worker ---

  lemma WorkersIdle(holder: Pc, next: Pc, worker: Option<nat>, workers: seq<Worker>)
    requires WorkersOk(holder, worker, workers) && !Busy(holder) && !Busy(next)
    ensures WorkersOk(next, worker, workers)
  {
  }

  lemma WorkersInspect(u: Setup, s: State)
    requires WorkersOk(Inspecting, s.worker, s.workers)
    ensures var d := WorkEffect(u, s, Inspecting, Inspect);
            WorkersOk(WorkTarget(u, s, Inspecting, Inspect), d.worker, d.workers)
  {
    hide Preferred, Crashed;
  }

  lemma WorkersLoad(u: Setup, s: State, pc: Pc, m: Work)
    requires WorkReady(pc, m) && WorkersOk(pc, s.worker, s.workers)
    ensures var d := WorkEffect(u, s, pc, m); WorkersOk(WorkTarget(u, s, pc, m), d.worker, d.workers)
  {
    hide Preferred, Crashed, Alive;
    if m.Inspect? {
      hide WorkersOk, WorkEffect, WorkTarget;
      WorkersInspect(u, s);
    }
  }

  lemma WorkersKilled(holder: Pc, worker: Option<nat>, workers: seq<Worker>, after: Pc)
    requires WorkersOk(holder, worker, workers) && !Busy(holder) && !Busy(after)
    ensures WorkersOk(after, None, CloseAt(workers, worker))
    ensures forall w | 0 <= w < |workers| :: CloseAt(workers, worker)[w].closed
  {
  }

  lemma ClosePlaces(s: State, pc: Pc, m: Close)
    requires CloseReady(s, pc, m)
    ensures !Busy(pc) && !Busy(CloseTarget(s, m)) && !Busy(Outside)
    ensures m == Kill ==> InSlot(pc) && InSlot(CloseTarget(s, m))
  {
  }

  lemma CloseKeeps(s: State, t: nat, m: Close)
    ensures CloseEffect(s, t, m).worker == if m == Kill then None else s.worker
    ensures CloseEffect(s, t, m).workers == if m == Kill then CloseAt(s.workers, s.worker) else s.workers
  {
    hide CloseAt;
  }

  lemma WorkersClose(s: State, t: nat, pc: Pc, m: Close, holder: Pc)
    requires CloseReady(s, pc, m) && WorkersOk(holder, s.worker, s.workers) && Fits(pc, CloseTarget(s, m), holder)
    ensures var d := CloseEffect(s, t, m); WorkersOk(Passed(pc, CloseTarget(s, m), holder), d.worker, d.workers)
  {
    hide CloseAt, WorkersOk, CloseReady, CloseTarget, CloseEffect, InSlot, Busy;
    ClosePlaces(s, pc, m);
    CloseKeeps(s, t, m);
    var after := Passed(pc, CloseTarget(s, m), holder);
    if m == Kill {
      WorkersKilled(pc, s.worker, s.workers, after);
    } else if after != holder {
      WorkersIdle(holder, after, s.worker, s.workers);
    }
  }

  lemma WorkersMove(u: Setup, s: State, t: nat, pc: Pc, m: Move, holder: Pc)
    requires Ready(s, pc, m) && WorkersOk(holder, s.worker, s.workers) && Fits(pc, Target(u, s, pc, m), holder)
    ensures var d := Effect(u, s, t, pc, m); WorkersOk(Passed(pc, Target(u, s, pc, m), holder), d.worker, d.workers)
  {
    hide GateReady, GateTarget, GateEffect, WorkReady, WorkTarget, WorkEffect, CloseReady, CloseTarget, CloseEffect,
         WorkersOk, SlotFits;
    match m
    case Pass(g) =>
      GateFrame(u, s, t, pc, g);
      var after := Passed(pc, GateTarget(u, s, g), holder);
      if after != holder { WorkersIdle(holder, after, s.worker, s.workers); }
    case Do(w) =>
      WorkFrame(u, s, t, pc, w);
      WorkersLoad(u, s, pc, w);
    case Shutdown(c) => WorkersClose(s, t, pc, c, holder);
  }

  // --- the device ---

  lemma CloseIdle(s: State, pc: Pc, m: Close)
    requires CloseReady(s, pc, m)
    ensures !Working(pc) && !Working(CloseTarget(s, m)) && !Working(Outside)
  {
  }

  lemma DeviceLoad(u: Setup, s: State, pc: Pc, m: Work)
    requires WorkReady(pc, m) && DeviceOk(u, s.fallback, s.selected, pc)
    ensures var d := WorkEffect(u, s, pc, m); DeviceOk(u, d.fallback, d.selected, WorkTarget(u, s, pc, m))
  {
    hide CloseAt, Alive;
  }

  lemma DeviceMove(u: Setup, s: State, t: nat, pc: Pc, m: Move, holder: Pc)
    requires Ready(s, pc, m) && DeviceOk(u, s.fallback, s.selected, holder) && Fits(pc, Target(u, s, pc, m), holder)
    ensures var d := Effect(u, s, t, pc, m);
            DeviceOk(u, d.fallback, d.selected, Passed(pc, Target(u, s, pc, m), holder))
  {
    hide GateReady, GateTarget, GateEffect, WorkReady, WorkTarget, WorkEffect, CloseReady, CloseTarget, CloseEffect,
         SlotFits;
    match m
    case Pass(g) => GateFrame(u, s, t, pc, g);
    case Do(w) =>
      WorkFrame(u, s, t, pc, w);
      DeviceLoad(u, s, pc, w);
    case Shutdown(c) =>
      CloseFrame(s, t, pc, c);
      CloseIdle(s, pc, c);
  }

  // --- shutdown ---

  lemma ClientsStep(u: Setup, s: State, t: nat, m: Move)
    requires Enabled(s, Run(t, m)) && ClientsOk(s.initialized, s.selected, s.threads)
    ensures var n := Next(u, s, Run(t, m)); ClientsOk(n.initialized, n.selected, n.threads)
  {
    hide GateReady, GateTarget, GateEffect, WorkReady, WorkTarget, CloseReady, CloseTarget, CloseEffect, SlotFits,
         CloseAt, Alive, Preferred, Crashed;
    match m
    case Pass(g) => GateFrame(u, s, t, s.threads[t], g);
    case Do(w) => WorkFrame(u, s, t, s.threads[t], w);
    case Shutdown(c) => CloseFrame(s, t, s.threads[t], c);
  }

  lemma GoneClose(s: State, t: nat, pc: Pc, m: Close, holder: Pc)
    requires CloseReady(s, pc, m) && Gone(holder, s.worker, s.workers) && Fits(pc, CloseTarget(s, m), holder)
    ensures var d := CloseEffect(s, t, m); Gone(Passed(pc, CloseTarget(s, m), holder), d.worker, d.workers)
  {
    hide CloseReady, CloseTarget, CloseEffect, InSlot, Working;
    CloseKeeps(s, t, m);
    CloseIdle(s, pc, m);
  }

  lemma GoneMove(u: Setup, s: State, t: nat, pc: Pc, m: Move, holder: Pc)
    requires Ready(s, pc, m) && Gone(holder, s.worker, s.workers) && s.closed && Fits(pc, Target(u, s, pc, m), holder)
    ensures var d := Effect(u, s, t, pc, m); Gone(Passed(pc, Target(u, s, pc, m), holder), d.worker, d.workers)
  {
    hide GateReady, GateTarget, GateEffect, WorkReady, WorkTarget, WorkEffect, CloseReady, CloseTarget, CloseEffect,
         SlotFits, InSlot, Working;
    match m
    case Pass(g) =>
      GateFrame(u, s, t, pc, g);
      IdlePlaces(pc);
    case Do(w) => WorkFrame(u, s, t, pc, w);
    case Shutdown(c) => GoneClose(s, t, pc, c, holder);
  }

  lemma IdlePlaces(pc: Pc)
    ensures !Working(Outside) && (Working(pc) ==> InSlot(pc))
  {
  }

  // Killing the worker is what makes everything gone.
  lemma KillGone(s: State, t: nat, pc: Pc, holder: Pc)
    requires CloseReady(s, pc, Kill) && WorkersOk(holder, s.worker, s.workers) && holder == pc
    ensures var d := CloseEffect(s, t, Kill); Gone(CloseTarget(s, Kill), d.worker, d.workers)
  {
  }

  lemma CloserFacts(closed: bool, closeDone: bool, threads: seq<Pc>, t: nat)
    requires CloserOk(closed, closeDone, threads) && t < |threads|
    ensures Closer(threads[t]) ==> closed && !closeDone
    ensures closeDone ==> closed
  {
  }

  lemma ShutCloses(closed: bool, closeDone: bool, threads: seq<Pc>)
    requires CloserOk(closed, closeDone, threads) && Shut(closeDone, threads)
    ensures closed
  {
  }

  lemma CloserKept(closed: bool, closeDone: bool, threads: seq<Pc>, t: nat, next: Pc)
    requires CloserOk(closed, closeDone, threads) && t < |threads| && Closer(threads[t]) == Closer(next)
    requires next.AwaitingClose? ==> closed
    ensures CloserOk(closed, closeDone, threads[t := next])
  {
    if SomeCloser(threads) {
      var r :| 0 <= r < |threads| && Closer(threads[r]);
      assert Closer(threads[t := next][r]);
    }
  }

  lemma CloserBegins(threads: seq<Pc>, t: nat)
    requires CloserOk(false, false, threads) && t < |threads|
    ensures CloserOk(true, false, threads[t := Closing])
  {
    assert Closer(threads[t := Closing][t]);
  }

  lemma CloserReports(threads: seq<Pc>, t: nat)
    requires CloserOk(true, false, threads) && t < |threads| && Closer(threads[t])
    ensures CloserOk(true, true, threads[t := Outside])
  {
  }

  lemma CloserStep(u: Setup, s: State, t: nat, m: Move)
    requires Enabled(s, Run(t, m)) && CloserOk(s.closed, s.closeDone, s.threads)
    ensures var n := Next(u, s, Run(t, m)); CloserOk(n.closed, n.closeDone, n.threads)
  {
    hide GateReady, GateTarget, GateEffect, WorkReady, WorkTarget, WorkEffect, SlotFits, CloseAt, CloserOk;
    var pc := s.threads[t];
    match m
    case Pass(g) =>
      GateFrame(u, s, t, pc, g);
      CloserKept(s.closed, s.closeDone, s.threads, t, GateTarget(u, s, g));
    case Do(w) =>
      WorkFrame(u, s, t, pc, w);
      CloserKept(s.closed, s.closeDone, s.threads, t, WorkTarget(u, s, pc, w));
    case Shutdown(c) =>
      CloserFacts(s.closed, s.closeDone, s.threads, t);
      if c.Begin? && !s.closed {
        CloserBegins(s.threads, t);
      } else if c.Report? {
        CloserReports(s.threads, t);
      } else {
        CloserKept(s.closed, s.closeDone, s.threads, t, CloseTarget(s, c));
      }
  }

  lemma ShutUpdate(closeDone: bool, threads: seq<Pc>, t: nat, next: Pc, after: bool)
    requires t < |threads| && (closeDone ==> after) && (Killed(threads[t]) ==> Killed(next) || after)
    ensures Shut(closeDone, threads) ==> Shut(after, threads[t := next])
    ensures (after ==> closeDone || Killed(threads[t])) && (Killed(next) ==> Killed(threads[t]))
            && Shut(after, threads[t := next])
      ==> Shut(closeDone, threads)
  {
    if Shut(closeDone, threads) && !after {
      var r :| 0 <= r < |threads| && Killed(threads[r]);
      assert Killed(threads[t := next][r]);
    }
    if Killed(threads[t]) { assert Shut(closeDone, threads); }
  }

  lemma ShutClose(s: State, t: nat, pc: Pc, m: Close)
    requires CloseReady(s, pc, m)
    ensures var after := CloseEffect(s, t, m).closeDone; var next := CloseTarget(s, m);
      && (s.closeDone ==> after) && (Killed(pc) ==> Killed(next) || after)
      && (m != Kill ==> (after ==> s.closeDone || Killed(pc)) && (Killed(next) ==> Killed(pc)))
  {
    hide CloseAt;
  }

  lemma ShutMove(u: Setup, s: State, t: nat, pc: Pc, m: Move)
    requires Ready(s, pc, m)
    ensures var after := Effect(u, s, t, pc, m).closeDone; var next := Target(u, s, pc, m);
      && (s.closeDone ==> after) && (Killed(pc) ==> Killed(next) || after)
      && (m != Shutdown(Kill) ==> (after ==> s.closeDone || Killed(pc)) && (Killed(next) ==> Killed(pc)))
  {
    hide GateReady, GateTarget, GateEffect, WorkReady, WorkTarget, WorkEffect, CloseReady, CloseTarget, CloseEffect,
         SlotFits, InQueue, InSlot, Busy;
    match m
    case Pass(g) => GateFrame(u, s, t, pc, g);
    case Do(w) => WorkFrame(u, s, t, pc, w);
    case Shutdown(c) => ShutClose(s, t, pc, c);
  }

  lemma KillShape(u: Setup, s: State, t: nat, pc: Pc, holder: Pc)
    requires Ready(s, pc, Shutdown(Kill)) && Fits(pc, Target(u, s, pc, Shutdown(Kill)), holder)
    ensures CloseReady(s, pc, Kill) && holder == pc && Effect(u, s, t, pc, Shutdown(Kill)) == CloseEffect(s, t, Kill)
    ensures Passed(pc, Target(u, s, pc, Shutdown(Kill)), holder) == CloseTarget(s, Kill)
  {
  }

  lemma ShutStep(u: Setup, s: State, t: nat, m: Move)
    requires Enabled(s, Run(t, m)) && Inv(u, s)
    ensures var n := Next(u, s, Run(t, m));
            Shut(n.closeDone, n.threads) ==> Gone(Holder(n.slot, n.threads), n.worker, n.workers)
    ensures var n := Next(u, s, Run(t, m)); Shut(s.closeDone, s.threads) ==> Shut(n.closeDone, n.threads)
  {
    hide Ready, Target, Effect, Gone, WorkersOk, SlotOk, DeviceOk, ClientsOk, Count, CloserOk, Shut, Holder, Passed,
         Fits, Killed;
    var pc := s.threads[t];
    var holder := Holder(s.slot, s.threads);
    SlotStep(u, s, t, m);
    ShutMove(u, s, t, pc, m);
    ShutUpdate(s.closeDone, s.threads, t, Target(u, s, pc, m), Effect(u, s, t, pc, m).closeDone);
    if m == Shutdown(Kill) {
      KillShape(u, s, t, pc, holder);
      KillGone(s, t, pc, holder);
    } else if Shut(s.closeDone, s.threads) {
      ShutCloses(s.closed, s.closeDone, s.threads);
      GoneMove(u, s, t, pc, m, holder);
    }
  }

  lemma DeathOk(u: Setup, s: State, w: nat)
    requires Inv(u, s) && w < |s.workers|
    ensures Inv(u, s.(workers := s.workers[w := s.workers[w].(alive := false)]))
  {
    hide SlotOk, DeviceOk, ClientsOk, Count, CloserOk, Shut, Holder;
  }

  lemma NextOk(u: Setup, s: State, e: Step)
    requires Inv(u, s) && Enabled(s, e)
    ensures Inv(u, Next(u, s, e))
  {
    hide Ready, Target, Effect, Gone, WorkersOk, SlotOk, DeviceOk, ClientsOk, Count, CloserOk, Shut, Holder, Passed,
         Fits;
    match e
    case Run(t, m) =>
      var pc := s.threads[t];
      SlotStep(u, s, t, m);
      QueueMove(u, s, t, pc, m);
      CountUpdate(s.threads, t, Target(u, s, pc, m));
      WorkersMove(u, s, t, pc, m, Holder(s.slot, s.threads));
      DeviceMove(u, s, t, pc, m, Holder(s.slot, s.threads));
      ClientsStep(u, s, t, m);
      CloserStep(u, s, t, m);
      ShutStep(u, s, t, m);
    case WorkerDies(w) =>
      DeathOk(u, s, w);
  }

  // --- whole runs -------------------------------------------------------------

  // None when some step of the run was not possible.
  function Execute(u: Setup, s: State, run: seq<Step>): Option<State>
    decreases |run|
  {
    if run == [] then Some(s)
    else if Enabled(s, run[0]) then Execute(u, Next(u, s, run[0]), run[1..])
    else None
  }

  // Everything Close promises once it has dealt with the worker.
  ghost predicate Dead(s: State) {
    && (forall w | 0 <= w < |s.workers| :: s.workers[w].closed)
    && (forall t | 0 <= t < |s.threads| :: !s.threads[t].Loading? && !s.threads[t].Inferring?)
  }

  lemma {:induction false} RunOk(u: Setup, s: State, run: seq<Step>)
    requires Inv(u, s)
    ensures Execute(u, s, run).Some? ==> Inv(u, Execute(u, s, run).value)
    decreases |run|
  {
    hide Inv, Next, Enabled;
    if run != [] && Enabled(s, run[0]) {
      NextOk(u, s, run[0]);
      RunOk(u, Next(u, s, run[0]), run[1..]);
    }
  }

  // In every reachable state at most one thread loads or infers, at most one
  // worker is open, and it is the owned one or just loaded by the slot's holder.
  lemma OneWorker(u: Setup, clients: nat, first: Attempt, second: Attempt, run: seq<Step>, s: State)
    requires Execute(u, Boot(u, clients, first, second), run) == Some(s)
    ensures forall t, r | 0 <= t < |s.threads| && 0 <= r < |s.threads| && Working(s.threads[t])
            && Working(s.threads[r]) :: t == r
    ensures forall v, w | 0 <= v < |s.workers| && 0 <= w < |s.workers| && !s.workers[v].closed
            && !s.workers[w].closed :: v == w
    ensures forall w | 0 <= w < |s.workers| && !s.workers[w].closed ::
      s.worker == Some(w) || exists t | 0 <= t < |s.threads| :: s.threads[t].Holding? && s.threads[t].worker == Some(w)
    ensures forall t | 0 <= t < |s.threads| && s.threads[t].Inferring? ::
      s.worker.Some? && s.worker.value < |s.workers| && !s.workers[s.worker.value].closed
  {
    hide Boot, Execute, CloserOk, Shut, Gone, DeviceOk, ClientsOk, Count;
    BootOk(u, clients, first, second);
    RunOk(u, Boot(u, clients, first, second), run);
    forall t | 0 <= t < |s.threads| && Working(s.threads[t]) ensures s.slot == Some(t)
      && Holder(s.slot, s.threads) == s.threads[t] {
      assert InSlot(s.threads[t]);
    }
  }

  lemma Admission(u: Setup, clients: nat, first: Attempt, second: Attempt, run: seq<Step>, s: State)
    requires Execute(u, Boot(u, clients, first, second), run) == Some(s)
    ensures Count(s.threads) == s.queue <= u.capacity
  {
    hide Boot, Execute, CloserOk, Shut, Gone, DeviceOk, ClientsOk, Count, SlotOk, WorkersOk;
    BootOk(u, clients, first, second);
    RunOk(u, Boot(u, clients, first, second), run);
  }

  lemma InvDead(u: Setup, s: State)
    requires Inv(u, s) && Shut(s.closeDone, s.threads)
    ensures Dead(s)
  {
    hide CloserOk, Shut, DeviceOk, ClientsOk, Count, WorkersOk;
    forall t | 0 <= t < |s.threads| ensures !s.threads[t].Loading? && !s.threads[t].Inferring? {
      assert InSlot(s.threads[t]) ==> Holder(s.slot, s.threads) == s.threads[t];
    }
  }

  lemma DeathKeeps(u: Setup, s: State, w: nat)
    requires Enabled(s, WorkerDies(w))
    ensures Next(u, s, WorkerDies(w)).closeDone == s.closeDone && Next(u, s, WorkerDies(w)).threads == s.threads
  {
  }

  lemma {:induction false} ShutStays(u: Setup, s: State, run: seq<Step>)
    requires Inv(u, s) && Shut(s.closeDone, s.threads)
    ensures Execute(u, s, run).Some? ==> Dead(Execute(u, s, run).value)
    decreases |run|
  {
    hide Inv, Next, Enabled, Dead, Shut;
    if run == [] {
      InvDead(u, s);
    } else if Enabled(s, run[0]) {
      NextOk(u, s, run[0]);
      var n := Next(u, s, run[0]);
      match run[0]
      case Run(t, m) =>
        ShutStep(u, s, t, m);
        ShutStays(u, n, run[1..]);
      case WorkerDies(w) =>
        DeathKeeps(u, s, w);
        ShutStays(u, n, run[1..]);
    }
  }

  // Close holds the slot, or held it.
  predicate Grasps(pc: Pc) { pc.Shutting? || Killed(pc) }

  ghost predicate Grasped(s: State) { s.closeDone || exists t | 0 <= t < |s.threads| :: Grasps(s.threads[t]) }

  // No thread loads or infers.
  ghost predicate Quiet(s: State) {
    forall t | 0 <= t < |s.threads| :: !s.threads[t].Loading? && !s.threads[t].Inferring?
  }

  lemma GraspedQuiet(u: Setup, s: State)
    requires Inv(u, s) && Grasped(s)
    ensures Quiet(s)
  {
    hide CloserOk, DeviceOk, ClientsOk, Count, WorkersOk;
    if Shut(s.closeDone, s.threads) {
      InvDead(u, s);
    } else {
      var r :| 0 <= r < |s.threads| && Grasps(s.threads[r]);
      assert s.slot == Some(r);
      forall t | 0 <= t < |s.threads| ensures !s.threads[t].Loading? && !s.threads[t].Inferring? {
        assert InSlot(s.threads[t]) ==> t == r;
      }
    }
  }

  lemma GraspMove(u: Setup, s: State, t: nat, pc: Pc, m: Move)
    requires Ready(s, pc, m) && Grasps(pc)
    ensures Grasps(Target(u, s, pc, m)) || Effect(u, s, t, pc, m).closeDone
  {
    hide CloseAt, Preferred, Crashed, Alive, Loaded, Retries;
  }

  lemma GraspStep(u: Setup, s: State, e: Step)
    requires Enabled(s, e) && Grasped(s)
    ensures Grasped(Next(u, s, e))
  {
    hide Ready, Target, Effect, Grasps;
    match e
    case WorkerDies(w) =>
      DeathKeeps(u, s, w);
    case Run(t, m) =>
      ShutMove(u, s, t, s.threads[t], m);
      var n := Next(u, s, e);
      if !n.closeDone {
        var r :| 0 <= r < |s.threads| && Grasps(s.threads[r]);
        if r == t { GraspMove(u, s, t, s.threads[t], m); }
        assert Grasps(n.threads[r]);
      }
  }

  lemma {:induction false} GraspStays(u: Setup, s: State, run: seq<Step>)
    requires Inv(u, s) && Grasped(s)
    ensures Execute(u, s, run).Some? ==> Quiet(Execute(u, s, run).value)
    decreases |run|
  {
    hide Inv, Next, Enabled, Quiet, Grasped;
    if run == [] {
      GraspedQuiet(u, s);
    } else if Enabled(s, run[0]) {
      NextOk(u, s, run[0]);
      GraspStep(u, s, run[0]);
      GraspStays(u, Next(u, s, run[0]), run[1..]);
    }
  }

  // From the moment Close holds the slot no thread loads or infers, whatever else
  // runs, now and ever after; from the moment it has closed the worker, no worker
  // is open either.
  lemma CloseIsFinal(u: Setup, clients: nat, first: Attempt, second: Attempt, run: seq<Step>, s: State,
      later: seq<Step>, e: State)
    requires Execute(u, Boot(u, clients, first, second), run) == Some(s)
    requires s.closeDone || exists t | 0 <= t < |s.threads| :: Grasps(s.threads[t])
    requires Execute(u, s, later) == Some(e)
    ensures Quiet(s) && Quiet(e)
    ensures (s.closeDone || exists t | 0 <= t < |s.threads| :: Killed(s.threads[t])) ==> Dead(s) && Dead(e)
  {
    hide Boot, Execute, Inv, Dead, Killed, Grasps, Quiet;
    BootOk(u, clients, first, second);
    RunOk(u, Boot(u, clients, first, second), run);
    GraspedQuiet(u, s);
    GraspStays(u, s, later);
    if Shut(s.closeDone, s.threads) {
      InvDead(u, s);
      ShutStays(u, s, later);
    }
  }

  // --- the device -------------------------------------------------------------

  predicate Falls(u: Setup, before: Option<Device>, after: Option<Device>) {
    after == before || (u.mode == Auto && before == Some(Cuda) && after == Some(Cpu))
  }

  lemma FallsStill(u: Setup, d: Option<Device>)
    ensures Falls(u, d, d)
  {
  }

  lemma SelectedLoad(u: Setup, s: State, pc: Pc, m: Work)
    requires WorkReady(pc, m) && DeviceOk(u, s.fallback, s.selected, pc) && s.selected.Some?
    ensures Falls(u, s.selected, WorkEffect(u, s, pc, m).selected)
  {
    hide CloseAt, Alive, Crashed;
    if m.Settle? && Loaded(pc, m.done) {
      assert pc.device == Preferred(u, s.fallback);
      match s.selected.value
      case Cuda =>
      case Cpu =>
    }
  }

  lemma SelectedStep(u: Setup, s: State, e: Step)
    requires Inv(u, s) && Enabled(s, e)
    ensures Falls(u, s.selected, Next(u, s, e).selected)
  {
    hide GateReady, GateTarget, GateEffect, WorkReady, WorkTarget, WorkEffect, CloseReady, CloseTarget, CloseEffect,
         SlotFits, Falls, Gone, Shut, CloserOk, WorkersOk, Count, CloseAt, SlotOk, DeviceOk;
    FallsStill(u, s.selected);
    if e.Run? {
      var pc := s.threads[e.t];
      match e.move
      case Pass(g) => GateFrame(u, s, e.t, pc, g);
      case Do(w) =>
        WorkFrame(u, s, e.t, pc, w);
        SlotStep(u, s, e.t, e.move);
        assert s.selected.Some?;
        SelectedLoad(u, s, pc, w);
      case Shutdown(c) => CloseFrame(s, e.t, pc, c);
    }
  }

  // Over any run the device choice only ever moves from cuda to cpu, in auto mode.
  lemma {:induction false} DeviceOnlyFalls(u: Setup, s: State, run: seq<Step>)
    requires Inv(u, s)
    ensures Execute(u, s, run).Some? ==> Falls(u, s.selected, Execute(u, s, run).value.selected)
    decreases |run|
  {
    hide Inv, Next, Enabled;
    if run != [] && Enabled(s, run[0]) {
      NextOk(u, s, run[0]);
      SelectedStep(u, s, run[0]);
      DeviceOnlyFalls(u, Next(u, s, run[0]), run[1..]);
    }
  }

  // Once auto mode settled on the cpu, no thread loads on cuda; a fixed device is
  // the only one ever loaded.
  lemma LoadsOn(u: Setup, clients: nat, first: Attempt, second: Attempt, run: seq<Step>, s: State, t: nat)
    requires Execute(u, Boot(u, clients, first, second), run) == Some(s)
    requires t < |s.threads| && s.threads[t].Loading?
    ensures u.mode.Fixed? ==> s.threads[t].device == u.mode.device
    ensures s.selected == Some(Cpu) && u.mode == Auto ==> s.threads[t].device == Cpu
  {
    hide Boot, Execute, CloserOk, Shut, Gone, WorkersOk, ClientsOk, Count;
    BootOk(u, clients, first, second);
    RunOk(u, Boot(u, clients, first, second), run);
    assert Holder(s.slot, s.threads) == s.threads[t] by { assert InSlot(s.threads[t]); }
  }

  // --- progress ---------------------------------------------------------------

  function MoveOf(pc: Pc): Move {
    match pc
    case Outside => Pass(Enter)
    case Available => Pass(Admit)
    case Queued => Pass(Acquire)
    case Slotted => Pass(CheckClosed)
    case SawOpen => Pass(CheckContext(false))
    case Inspecting => Do(Inspect)
    case Loading(_) => Do(FactoryReturns(false, false))
    case Holding(_, _, _) => Do(Settle(false))
    case Prepared => Do(Infer)
    case Inferring => Do(InferenceEnds(true))
    case Failed => Do(Discard(true))
    case Leaving => Pass(Release)
    case Dequeuing => Pass(Dequeue)
    case Closing => Shutdown(Cancel)
    case AwaitingSlot => Shutdown(Take)
    case Shutting => Shutdown(Kill)
    case ReleasingShut => Shutdown(Drop)
    case Finished => Shutdown(Report)
    case AwaitingClose => Shutdown(Awaited)
  }

  lemma Free(s: State, t: nat)
    requires t < |s.threads|
    requires s.threads[t].Queued? || s.threads[t].AwaitingSlot? ==> s.slot == None
    requires s.threads[t].AwaitingClose? ==> s.closeDone
    requires s.threads[t].Dequeuing? ==> s.queue > 0
    ensures Enabled(s, Run(t, MoveOf(s.threads[t])))
  {
  }

  // Releasing a queue place never blocks: whoever releases one holds one.
  lemma PlaceHeld(s: State, t: nat)
    requires t < |s.threads| && InQueue(s.threads[t]) && s.queue == Count(s.threads)
    ensures s.queue > 0
  {
    CountUpdate(s.threads, t, Outside);
  }

  // The lock order has no cycle: while any thread is inside, some thread inside
  // can take its next step.
  lemma NoDeadlock(u: Setup, s: State, t: nat)
    requires Inv(u, s) && t < |s.threads| && s.threads[t] != Outside
    ensures exists r, m :: 0 <= r < |s.threads| && s.threads[r] != Outside && Enabled(s, Run(r, m))
  {
    hide Enabled, Gone, Shut, WorkersOk, DeviceOk, ClientsOk, Count;
    var r: nat := t;
    if s.threads[r].AwaitingClose? && !s.closeDone {
      var c :| 0 <= c < |s.threads| && Closer(s.threads[c]);
      r := c;
    }
    if (s.threads[r].Queued? || s.threads[r].AwaitingSlot?) && s.slot.Some? {
      r := s.slot.value;
    }
    if s.threads[r].Dequeuing? { PlaceHeld(s, r); }
    Free(s, r);
  }
}
