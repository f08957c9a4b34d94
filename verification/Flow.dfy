// The sender's credit window. All counters are cumulative source frames of one
// generation: the client reports what it received and played, the sender may be
// at most `capacity` frames ahead of what was played.
module Flow {
  import opened Arithmetic

  datatype Credit = Credit(capacity: int, received: int, played: int, buffered: int)

  datatype FlowState = FlowState(rate: nat, capacity: int, reserved: int, received: int, played: int, explicit: bool)

  predicate SupportedRate(rate: int) { 1000 <= rate <= 192000 }

  function Fresh(rate: nat): FlowState { FlowState(rate, rate * 2, 0, 0, 0, false) }

  function CreditRequired(s: FlowState): FlowState { s.(explicit := true, capacity := 0) }

  function Available(s: FlowState): int { s.capacity + s.played - s.reserved }

  predicate Acceptable(s: FlowState, c: Credit) {
    && s.rate / 10 <= c.capacity <= s.rate * 30
    && 0 <= c.received <= s.reserved
    && 0 <= c.played <= c.received
    && c.buffered == c.received - c.played
  }

  predicate Stale(s: FlowState, c: Credit) { c.received < s.received || c.played < s.played }

  // A rejected snapshot is an error and changes nothing; a stale one is ignored.
  function Updated(s: FlowState, c: Credit): FlowState {
    if !Acceptable(s, c) || Stale(s, c) then s
    else s.(explicit := true, capacity := c.capacity, received := c.received, played := c.played)
  }

  function Acknowledged(s: FlowState, played: int): FlowState {
    if s.explicit || Min(played, s.reserved) <= s.played then s
    else s.(played := Min(played, s.reserved), received := Max(s.received, Min(played, s.reserved)))
  }

  function Granted(s: FlowState, n: int): FlowState { s.(reserved := s.reserved + n) }

  // --- what every operation keeps -------------------------------------------

  ghost predicate WindowOk(s: FlowState) {
    && SupportedRate(s.rate)
    && 0 <= s.played <= s.received <= s.reserved
    && 0 <= s.capacity <= s.rate * 30
    && s.reserved - s.played <= s.rate * 30
  }

  datatype Op = UpdateOp(credit: Credit) | AcknowledgeOp(position: int) | ReserveOp(requested: int) | RequireOp

  // Reserve on an open window; a closed window waits, which changes nothing.
  function Apply(s: FlowState, op: Op): FlowState {
    match op
    case UpdateOp(c) => Updated(s, c)
    case AcknowledgeOp(p) => Acknowledged(s, p)
    case ReserveOp(n) => if n > 0 && Available(s) > 0 then Granted(s, Min(n, Available(s))) else s
    case RequireOp => CreditRequired(s)
  }

  function Run(s: FlowState, ops: seq<Op>): FlowState
    decreases |ops|
  {
    if ops == [] then s else Run(Apply(s, ops[0]), ops[1..])
  }

  lemma ApplyOk(s: FlowState, op: Op)
    requires WindowOk(s)
    ensures WindowOk(Apply(s, op))
    ensures Apply(s, op).reserved >= s.reserved && Apply(s, op).received >= s.received
            && Apply(s, op).played >= s.played
  {}

  // Credit cannot be minted. Over any run, accepted snapshots and grants keep
  // the sender within thirty seconds of what was reported played, counters only
  // grow, and nothing is reported played that was never granted.
  lemma {:induction false} NoCreditMinted(s: FlowState, ops: seq<Op>)
    requires WindowOk(s)
    ensures var t := Run(s, ops);
            && WindowOk(t)
            && t.reserved >= s.reserved && t.received >= s.received && t.played >= s.played
            && t.reserved <= t.rate * 30 + t.played && t.played <= t.received <= t.reserved
    decreases |ops|
  {
    if ops != [] {
      ApplyOk(s, ops[0]);
      NoCreditMinted(Apply(s, ops[0]), ops[1..]);
    }
  }

  // Replaying a snapshot, at once or after any later operations, adds no
  // received and no played frames.
  lemma ReplayAddsNothing(s: FlowState, c: Credit, ops: seq<Op>)
    requires WindowOk(s) && Acceptable(s, c)
    ensures var t := Run(Updated(s, c), ops);
            && Acceptable(t, c)
            && (Stale(t, c) ==> Updated(t, c) == t)
            && (!Stale(t, c) ==> Updated(t, c).received == t.received && Updated(t, c).played == t.played)
  {
    ApplyOk(s, UpdateOp(c));
    NoCreditMinted(Updated(s, c), ops);
    RateKept(Updated(s, c), ops);
  }

  lemma {:induction false} RateKept(s: FlowState, ops: seq<Op>)
    ensures Run(s, ops).rate == s.rate
    decreases |ops|
  {
    if ops != [] { RateKept(Apply(s, ops[0]), ops[1..]); }
  }

  // --- the controller --------------------------------------------------------

  // What a waiting sender is woken by: other goroutines' operations, the end of
  // its context, or the thirty-second timer.
  datatype Wake = Changed(ops: seq<Op>) | ContextDone | Expired

  // The operation is one the script performs while the sender waits.
  ghost predicate Scripted(script: seq<Wake>, op: Op) {
    exists k | 0 <= k < |script| :: script[k].Changed? && op in script[k].ops
  }

  datatype Grant = GrantedFrames(frames: int) | InvalidRequest | Cancelled | TimedOut | StillWaiting

  class FlowController {
    const rate: nat
    var capacity: int
    var reserved: int
    var received: int
    var played: int
    var explicit: bool

    ghost function State(): FlowState
      reads this
    {
      FlowState(rate, capacity, reserved, received, played, explicit)
    }

    constructor (rate: nat)
      requires SupportedRate(rate)
      ensures State() == Fresh(rate)
    {
      this.rate := rate;
      capacity, reserved, received, played, explicit := rate * 2, 0, 0, 0, false;
    }

    method RequireCredit()
      modifies this
      ensures State() == CreditRequired(old(State()))
    {
      explicit := true;
      capacity := 0;
    }

    method Update(c: Credit) returns (accepted: bool)
      modifies this
      ensures accepted == Acceptable(old(State()), c)
      ensures State() == Updated(old(State()), c)
    {
      if c.capacity < rate / 10 || c.capacity > rate * 30 || c.received < 0 || c.received > reserved
         || c.played < 0 || c.played > c.received || c.buffered != c.received - c.played {
        return false;
      }
      if c.received < received || c.played < played { return true; }
      explicit, capacity, received, played := true, c.capacity, c.received, c.played;
      return true;
    }

    method Acknowledge(position: int)
      modifies this
      ensures State() == Acknowledged(old(State()), position)
    {
      if explicit { return; }
      var p := Min(position, reserved);
      if p > played {
        played := p;
        received := Max(received, p);
      }
    }

    method Snapshot() returns (s: FlowState, available: int)
      ensures s == State() && available == Max(0, Available(State()))
    {
      s := FlowState(rate, capacity, reserved, received, played, explicit);
      available := Max(0, capacity + played - reserved);
    }

    // The wait loop. Between two looks at the window the lock is free, and the
    // script says what happens there. A grant is positive, at most what was
    // asked and exactly the open window otherwise; no other outcome reserves.
    method Reserve(requested: int, done: bool, script: seq<Wake>) returns (grant: Grant, ghost seen: seq<Op>)
      modifies this
      ensures grant.GrantedFrames? ==>
        var s := Run(old(State()), seen);
        && 0 < grant.frames == Min(requested, Available(s))
        && State() == Granted(s, grant.frames)
      ensures !grant.GrantedFrames? ==> State() == Run(old(State()), seen)
      ensures forall op | op in seen :: Scripted(script, op)
      ensures script == [] ==> seen == []
      ensures grant.InvalidRequest? <==> requested <= 0
      ensures !grant.GrantedFrames? && requested > 0 && !done ==> Available(State()) <= 0
      ensures requested > 0 && !done && Available(old(State())) > 0 ==> grant.GrantedFrames? && seen == []
    {
      seen := [];
      if requested <= 0 { return InvalidRequest, []; }
      var i, cancelled := 0, done;
      while true
        invariant 0 <= i <= |script|
        invariant State() == Run(old(State()), seen)
        invariant forall op | op in seen :: Scripted(script, op)
        invariant i == 0 ==> seen == [] && cancelled == done
        invariant i > 0 && Available(old(State())) > 0 ==> done
        invariant cancelled ==> done
        decreases |script| - i
      {
        if cancelled { return Cancelled, seen; }
        var available := capacity + played - reserved;
        if available > 0 {
          var n := Min(requested, available);
          reserved := reserved + n;
          return GrantedFrames(n), seen;
        }
        if i == |script| { return StillWaiting, seen; }
        match script[i] {
          case ContextDone => return Cancelled, seen;
          case Expired => return TimedOut, seen;
          case Changed(ops) =>
            ApplyAll(ops);
            RunConcat(old(State()), seen, ops);
            seen := seen + ops;
        }
        i := i + 1;
      }
    }

    // Operations of other goroutines, one locked section each.
    method ApplyAll(ops: seq<Op>)
      modifies this
      ensures State() == Run(old(State()), ops)
      decreases |ops|
    {
      if ops == [] { return; }
      match ops[0] {
        case UpdateOp(c) => var _ := Update(c);
        case AcknowledgeOp(p) => Acknowledge(p);
        case ReserveOp(n) =>
          if n > 0 && capacity + played - reserved > 0 { reserved := reserved + Min(n, capacity + played - reserved); }
        case RequireOp => RequireCredit();
      }
      ApplyAll(ops[1..]);
    }
  }

  lemma {:induction false} RunConcat(s: FlowState, a: seq<Op>, b: seq<Op>)
    ensures Run(s, a + b) == Run(Run(s, a), b)
    decreases |a|
  {
    if a == [] {
      assert a + b == b;
    } else {
      assert (a + b)[0] == a[0] && (a + b)[1..] == a[1..] + b;
      RunConcat(Apply(s, a[0]), a[1..], b);
    }
  }
}
