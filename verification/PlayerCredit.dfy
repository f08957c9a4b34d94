// The worklet's side of flow control: the window it advertises is safe and
// acceptable, and a sender that has run out of credit is always answered.
module PlayerCredit {
  import opened Arithmetic
  import opened Options
  import opened Resampling
  import opened PlayerModel
  import opened PlayerInvariant
  import opened PlayerRuns
  import opened PlayerAck

  // --- ring safety -----------------------------------------------------------

  // Ring frames left for audio once the tail and rounding are set aside.
  function Room(config: Config, rate: nat): int
    requires rate > 0
  {
    config.capacity - CeilDiv(config.outputRate, rate) - 2
  }

  lemma AdvertisedIsMin(config: Config, rate: nat)
    requires config.outputRate > 0 && rate > 0
    ensures AdvertisedCapacity(config, rate) == Min(rate * 2, Room(config, rate) * rate / config.outputRate)
  {}

  // A sender that keeps the received total within the advertised window of any
  // acknowledged position passes the ring check: the resampled total, tail
  // included, still fits with at least ceil(o/s) + 2 frames to spare.
  lemma AdvertisedWindowFits(v: View, acked: nat, total: nat)
    requires Inv(v) && v.stream.rate > 0
    requires acked <= SourceProgress(v)
    requires total - acked <= AdvertisedCapacity(v.config, v.stream.rate)
    ensures Target(total, v.stream.rate, v.config.outputRate) - v.stream.played <= Room(v.config, v.stream.rate)
  {
    ProgressIsFloor(v);
    AdvertisedIsMin(v.config, v.stream.rate);
    var o, s, played, room := v.config.outputRate, v.stream.rate, v.stream.played, Room(v.config, v.stream.rate);
    MulMono(acked, SourceProgress(v), o);
    hide Inv, AdvertisedCapacity, Room, SourceProgress, Target;
    WindowArithmetic(acked, total, played, room, s, o);
  }

  lemma WindowArithmetic(acked: nat, total: nat, played: nat, room: int, s: nat, o: nat)
    requires s > 0 && o > 0
    requires acked * o <= played * s
    requires total - acked <= room * s / o
    ensures Target(total, s, o) <= played + room
  {
    DivBounds(room * s, o);
    MulMono(total - acked, room * s / o, o);
    assert (total - acked) * o == total * o - acked * o;
    assert (played + room) * s == played * s + room * s;
    LtCeil(played + room, total * o, s);
  }

  // For every ring the constructor allows and every rate it accepts, the
  // advertised window is one the server accepts: a tenth of a second at least,
  // thirty seconds at most.
  lemma AdvertisedAccepted(o: nat, startupMs: Option<real>, lowMs: Option<real>, capacityMs: Option<real>, rate: nat)
    requires o >= 8000 && 1000 <= rate <= 192000
    ensures rate / 10 <= AdvertisedCapacity(MakeConfig(o, startupMs, lowMs, capacityMs), rate) <= rate * 30
  {
    var config := MakeConfig(o, startupMs, lowMs, capacityMs);
    SmallestRing(o, Bounded(capacityMs, 30000.0, 200.0, 30000.0));
    AdvertisedIsMin(config, rate);
    CeilBound(o, rate);
    hide AdvertisedCapacity, MakeConfig, CeilDiv;
    TenthFits(config.capacity - CeilDiv(o, rate) - 2, o, rate);
    LeFloor(rate / 10, Room(config, rate) * rate, o);
  }

  lemma SmallestRing(o: nat, capacityMs: real)
    requires 200.0 <= capacityMs
    ensures 5 * (RingFrames(o, capacityMs) + 1) >= o
  {
    assert o as real * capacityMs >= o as real * 200.0;
    assert o as real * capacityMs / 1000.0 >= o as real / 5.0;
  }

  // ceil(o / s) is below o / 1000 + 1 for every accepted source rate.
  lemma CeilBound(o: nat, s: nat)
    requires s >= 1000
    ensures 1000 * CeilDiv(o, s) <= o + 999
    ensures CeilDiv(o, s) >= 0
  {
    var q := o / 1000;
    DivBounds(o, 1000);
    MulMono(1000, s, q + 1);
    LtCeil(q + 1, o, s);
    LtCeil(-1, o, s);
    if o == 1000 * q {
      MulMono(1000, s, q);
      LtCeil(q, o, s);
    }
  }

  lemma TenthFits(room: int, o: nat, s: nat)
    requires o >= 8000 && s >= 1000
    requires 5000 * (room + 3) + 5 * 999 >= 1000 * o - 5 * o
    ensures s / 10 * o <= room * s
  {
    assert 10 * room >= o by { assert 50000 * room >= 5000 * o; }
    MulMono(o, 10 * room, s);
    DivBounds(s, 10);
    MulMono(s / 10 * 10, s, o);
    assert s / 10 * 10 * o == 10 * (s / 10 * o);
    assert 10 * room * s == 10 * (room * s);
  }

  // A ring of two output seconds plus rounding advertises the full two source
  // seconds that the session promises on its behalf; the default ring does.
  lemma TwoSecondRing(config: Config, rate: nat)
    requires config.outputRate > 0 && rate > 0
    ensures AdvertisedCapacity(config, rate) == 2 * rate <==> Room(config, rate) >= 2 * config.outputRate
  {
    AdvertisedIsMin(config, rate);
    var o, room := config.outputRate, Room(config, rate);
    LeFloor(2 * rate, room * rate, o);
    if room >= 2 * o { MulMono(2 * o, room, rate); } else { MulMonoStrict(room, 2 * o, rate); }
    assert 2 * rate * o == 2 * o * rate;
  }

  lemma DefaultRing(o: nat, startupMs: Option<real>, lowMs: Option<real>, rate: nat)
    requires o >= 1 && rate >= 1
    ensures Room(MakeConfig(o, startupMs, lowMs, None), rate) >= 2 * o
  {
    assert (o as real * 30000.0 / 1000.0) == (30 * o) as real;
    LtCeil(o, o, rate);
    MulMono(1, rate, o);
  }

  // --- no credit deadlock ----------------------------------------------------

  // Frames after which a report is certainly due.
  function ReportInterval(o: nat): nat { Max(128, CeilDiv(o, 20)) }

  lemma DueAfter(config: Config, lag: int)
    requires lag >= 0
    ensures ReportDue(config, lag) <==> lag >= ReportInterval(config.outputRate)
  {
    LtCeil(lag, config.outputRate, 20);
    LtCeil(-1, config.outputRate, 20);
  }

  // So many seconds of source lie beyond the last acknowledged position.
  ghost predicate Ahead(v: View, seconds: nat) {
    && Inv(v) && AckOk(v)
    && v.config.outputRate >= 8000 && ValidRate(v.stream.rate)
    && v.generation != "" && !v.paused && !v.stream.done
    && 0.0 <= v.config.startupMs <= 100.0 && 0.0 <= v.config.lowMs <= 100.0
    && |v.stream.source| - Acked(v).source >= seconds * v.stream.rate
  }

  // The sender is out of credit: everything it was granted has been received
  // and two seconds of source lie beyond the last acknowledged position.
  ghost predicate Blocked(v: View) { Ahead(v, 2) }

  // Source seconds are as many output seconds, up to one frame of rounding.
  lemma SecondsQueued(seconds: nat, n: nat, a: Ack, s: nat, o: nat)
    requires s > 0 && seconds > 0 && n - a.source >= seconds * s && AckPlace(a, s, o)
    ensures (Emitted(n, s, o) - a.frames - seconds * o + 1) * s >= -2 * o
  {
    MulMono(1, seconds, s);
    var m := Emitted(n, s, o);
    EmittedIff(m, n, s, o);
    // q bounds the acknowledged frames, counted from k, on the source axis.
    var q, k := a.source + 1, a.frames;
    if a.frames * s >= q * o && a.frames > 0 {
      k := a.frames - 1;
      EmittedIff(k, a.source, s, o);
      MulMono(a.source - 1, q, o);
    }
    hide Emitted, AckPlace;
    MulMono(q - 2 + seconds * s, n - 1, o);
    Spread(m, k, q, s, o, seconds);
    MulMono(m - k - seconds * o, m - a.frames - seconds * o + 1, s);
  }

  lemma Spread(m: int, k: int, q: int, s: int, o: int, seconds: int)
    requires s > 0 && o >= 0
    requires (q - 2 + seconds * s) * o < m * s && k * s <= q * o
    ensures (m - k - seconds * o) * s >= -2 * o
  {
    assert (q - 2 + seconds * s) * o == q * o - 2 * o + seconds * o * s;
    assert (m - k - seconds * o) * s == m * s - k * s - seconds * o * s;
  }

  lemma EnoughQueued(queued: int, lag: int, spare: int, ahead: int, o: nat)
    requires o >= 8000 && queued == spare - 1 + ahead - lag && 1000 * spare >= -2 * o && lag < ReportInterval(o)
    ensures 2 * queued >= 2 * ahead - o
  {
    LtCeil(o / 20 + 1, o, 20);
  }

  // The ring then holds as many seconds of output, but for what was rendered
  // since the last report and for rounding.
  lemma AheadQueue(v: View, seconds: nat)
    requires Ahead(v, seconds) && 1 <= seconds <= 2
    ensures 2 * Queued(v) >= (2 * seconds - 1) * v.config.outputRate
    ensures Queued(v) > Threshold(v)
  {
    var s, o, a := v.stream.rate, v.config.outputRate, Acked(v);
    var lag := v.stream.played - v.lastReported;
    SecondsQueued(seconds, |v.stream.source|, a, s, o);
    DueAfter(v.config, lag);
    var ahead := seconds * o;
    assert ahead >= o && (2 * seconds - 1) * o == 2 * ahead - o;
    var spare := Emitted(|v.stream.source|, s, o) - a.frames - ahead + 1;
    hide Emitted, Acked, ReportDue, ReportInterval, Threshold;
    SmallLoss(spare, o, s);
    assert Queued(v) == spare - 1 + ahead - lag;
    hide Inv, AckOk, Ahead;
    EnoughQueued(Queued(v), lag, spare, ahead, o);
    WatermarkBound(v);
  }

  lemma SmallLoss(spare: int, o: nat, s: nat)
    requires s >= 1000 && spare * s >= -2 * o
    ensures 1000 * spare >= -2 * o
  {
    if spare < 0 {
      MulMono(1000, s, -spare);
      assert (-spare) * s == -(spare * s);
    }
  }

  lemma CeilAtMost(x: real, q: int)
    requires x <= q as real
    ensures Ceil(x) <= q
  {
    assert -x >= (-q) as real;
  }

  lemma Share(o: nat, ms: real)
    requires 0.0 <= ms <= 100.0
    ensures o as real * ms / 1000.0 <= (o / 10 + 1) as real
  {
    var x, q := o as real, o / 10 + 1;
    var y := x * ms;
    assert y <= x * 100.0;
    assert (10 * q) as real == 10.0 * (q as real) && x <= (10 * q) as real;
    assert y <= 1000.0 * (q as real);
  }

  lemma WatermarkBound(v: View)
    requires 0.0 <= v.config.startupMs <= 100.0 && 0.0 <= v.config.lowMs <= 100.0
    ensures Threshold(v) <= v.config.outputRate / 10 + 1
  {
    var ms := if v.rebuffering then v.config.lowMs else v.config.startupMs;
    Share(v.config.outputRate, ms);
    CeilAtMost(v.config.outputRate as real * ms / 1000.0, v.config.outputRate / 10 + 1);
  }

  // So the next render quantum plays at least one frame.
  lemma BlockedRenders(v: View, frames: nat)
    requires Blocked(v) && frames > 0
    ensures Renders(v) && RenderCount(v, frames) >= 1
  {
    AheadQueue(v, 2);
    assert !v.completed;
  }

  // A due report names a strictly later source position.
  lemma DueAdvances(v: View, played: nat)
    requires Blocked(v) && ReportDue(v.config, played - v.lastReported)
    ensures Min(|v.stream.source|, SourceFloor(played, v.stream.rate, v.config.outputRate)) > Acked(v).source
  {
    var s, o, a := v.stream.rate, v.config.outputRate, Acked(v);
    var lag := played - v.lastReported;
    hide Inv, Acked;
    MulMono(1000, s, lag);
    assert played * s == a.frames * s + lag * s;
    assert (a.source + 1) * o == a.source * o + o;
    LeFloor(a.source + 1, played * s, o);
  }

  // One quantum in the blocked state either delivers a later acknowledgement or
  // leaves the sender blocked with the lag grown.
  lemma QuantumProgress(v: View, frames: nat)
    requires Blocked(v) && frames > 0
    ensures Inv(Process(v, frames))
    ensures var w := Process(v, frames);
            || Acked(w).source > Acked(v).source
            || (&& Blocked(w) && Acked(w) == Acked(v)
                && w.stream.played - w.lastReported > v.stream.played - v.lastReported)
  {
    hide Post, ReportsOk, LastAck;
    BlockedRenders(v, frames);
    AheadQueue(v, 2);
    ProcessOk(v, frames);
    ProcessAck(v, frames);
    ProcessMoves(v, frames);
    var count := RenderCount(v, frames);
    RenderOk(v, count);
    var r := Render(v, count);
    var starved := r.(rebuffering := true);
    PostAck(starved, Underrun);
    PostKeeps(starved, Underrun);
    var u := NoteUnderrun(r, count, frames);
    var w := NoteProgress(u, count);
    assert Acked(u) == Acked(v) && u.stream == r.stream && u.generation == v.generation;
    if Queued(u) == 0 || ReportDue(u.config, u.stream.played - u.lastReported) {
      PostAck(u, Progress);
      PostKeeps(u, Progress);
      DueAdvances(v, r.stream.played);
      ProgressIsFloor(r);
    }
    assert Process(v, frames) == w;
  }

  // Render quanta of any sizes, one after another.
  ghost function Quanta(v: View, sizes: seq<nat>): (w: View)
    requires Inv(v)
    ensures Inv(w)
    decreases |sizes|
  {
    if sizes == [] then v
    else
      ProcessOk(v, sizes[0]);
      Quanta(Process(v, sizes[0]), sizes[1..])
  }

  // No deadlock: within one report interval of render quanta, whatever their
  // sizes, an acknowledgement with a strictly later position is forwarded.
  lemma {:induction false} AckArrives(v: View, sizes: seq<nat>)
    requires Blocked(v) && forall i | 0 <= i < |sizes| :: sizes[i] > 0
    requires |sizes| >= ReportInterval(v.config.outputRate) - (v.stream.played - v.lastReported)
    ensures exists k | 0 <= k <= |sizes| :: Acked(Quanta(v, sizes[..k])).source > Acked(v).source
    decreases |sizes|
  {
    hide Process;
    DueAfter(v.config, v.stream.played - v.lastReported);
    assert |sizes| > 0;
    hide Process, Acked, FramesOk, DescriptorsOk, ProgressOk, ReportsOk, ReportInterval, ReportDue, Quanta;
    var w := Process(v, sizes[0]);
    QuantumProgress(v, sizes[0]);
    if Acked(w).source > Acked(v).source {
      QuantaUnfold(v, sizes, 0);
      assert Acked(Quanta(v, sizes[..1])).source > Acked(v).source;
    } else {
      AckArrives(w, sizes[1..]);
      var k :| 0 <= k <= |sizes[1..]| && Acked(Quanta(w, sizes[1..][..k])).source > Acked(w).source;
      QuantaUnfold(v, sizes, k);
      assert Acked(Quanta(v, sizes[..k + 1])).source > Acked(v).source;
    }
  }

  lemma QuantaUnfold(v: View, sizes: seq<nat>, k: nat)
    requires Inv(v) && k + 1 <= |sizes| && Inv(Process(v, sizes[0]))
    ensures Quanta(v, sizes[..k + 1]) == Quanta(Process(v, sizes[0]), sizes[1..][..k])
  {
    assert sizes[..k + 1][1..] == sizes[1..][..k];
  }
}
