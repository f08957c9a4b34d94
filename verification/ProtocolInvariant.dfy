// What every step of the credit-v1 protocol keeps, and what follows from it.
module ProtocolInvariant {
  import opened Arithmetic
  import opened Options
  import C = Client
  import M = PlayerModel
  import opened PlayerInvariant
  import R = PlayerRuns
  import A = PlayerAck
  import opened Protocol

  // --- the two data queues ---------------------------------------------------

  // How far a party has read the stream: frames, last packet, format and end seen.
  datatype Cursor = Cursor(received: int, chunk: int, packet: int, format: bool, done: bool)

  // One message read in order; None when it does not continue the stream.
  function Read(c: Cursor, start: int, frames: nat, chunk: int, packet: int): Option<Cursor> {
    if c.format && !c.done && start == c.received && frames > 0
       && 0 <= chunk <= c.received && 0 <= packet <= c.received
       && M.NextPacket(c.chunk, c.packet, chunk, packet)
    then Some(c.(received := c.received + frames, chunk := chunk, packet := packet))
    else None
  }

  function ReadDown(c: Cursor, m: Down): Option<Cursor> {
    match m
    case ChunkStarted => if c.done then None else Some(c.(format := true))
    case Packet(start, samples, chunk, packet) => Read(c, start, |samples|, chunk, packet)
    case GenerationDone(total) => if total == c.received && !c.done then Some(c.(done := true)) else None
  }

  function ReadPort(u: Setup, c: Cursor, e: R.Event): Option<Cursor> {
    match e
    case FormatEvent(id, rate) =>
      if id == u.generation && rate == u.rate && !c.done then Some(c.(format := true)) else None
    case AudioEvent(id, samples, rate, meta) =>
      if id == u.generation && rate == u.rate && meta.speechSequence.Some? && meta.audioSequence.Some?
         && meta == PortMetadata(c.received, |samples|, meta.speechSequence.value, meta.audioSequence.value)
      then Read(c, c.received, |samples|, meta.speechSequence.value, meta.audioSequence.value)
      else None
    case DoneEvent(id, n) =>
      if id == u.generation && n == Some(c.received) && !c.done then Some(c.(done := true)) else None
    case _ => if PauseEvent(u, e) then Some(c) else None
  }

  function AfterDown(c: Cursor, down: seq<Down>): Option<Cursor>
    decreases |down|
  {
    if down == [] then Some(c)
    else
      match ReadDown(c, down[0])
      case None => None
      case Some(d) => AfterDown(d, down[1..])
  }

  function AfterPort(u: Setup, c: Cursor, port: seq<R.Event>): Option<Cursor>
    decreases |port|
  {
    if port == [] then Some(c)
    else
      match ReadPort(u, c, port[0])
      case None => None
      case Some(d) => AfterPort(u, d, port[1..])
  }

  lemma {:induction false} AfterDownAppend(c: Cursor, down: seq<Down>, m: Down)
    ensures AfterDown(c, down + [m]) ==
            match AfterDown(c, down) case None => None case Some(d) => ReadDown(d, m)
    decreases |down|
  {
    if down == [] {
      assert (down + [m])[1..] == [];
    } else {
      assert (down + [m])[1..] == down[1..] + [m];
      if ReadDown(c, down[0]).Some? { AfterDownAppend(ReadDown(c, down[0]).value, down[1..], m); }
    }
  }

  lemma {:induction false} AfterPortAppend(u: Setup, c: Cursor, port: seq<R.Event>, e: R.Event)
    ensures AfterPort(u, c, port + [e]) ==
            match AfterPort(u, c, port) case None => None case Some(d) => ReadPort(u, d, e)
    decreases |port|
  {
    if port == [] {
      assert (port + [e])[1..] == [];
    } else {
      assert (port + [e])[1..] == port[1..] + [e];
      if ReadPort(u, c, port[0]).Some? { AfterPortAppend(u, ReadPort(u, c, port[0]).value, port[1..], e); }
    }
  }

  // Reading only moves forward.
  lemma {:induction false} AfterDownForward(c: Cursor, down: seq<Down>)
    requires AfterDown(c, down).Some?
    ensures AfterDown(c, down).value.received >= c.received
    decreases |down|
  {
    if down != [] { AfterDownForward(ReadDown(c, down[0]).value, down[1..]); }
  }

  lemma {:induction false} AfterPortForward(u: Setup, c: Cursor, port: seq<R.Event>)
    requires AfterPort(u, c, port).Some?
    ensures AfterPort(u, c, port).value.received >= c.received
    decreases |port|
  {
    if port != [] { AfterPortForward(u, ReadPort(u, c, port[0]).value, port[1..]); }
  }

  // Samples still on the wire and in the port.
  function DownSamples(down: seq<Down>): seq<real>
    decreases |down|
  {
    if down == [] then []
    else (if down[0].Packet? then down[0].samples else []) + DownSamples(down[1..])
  }

  function PortSamples(port: seq<R.Event>): seq<real>
    decreases |port|
  {
    if port == [] then []
    else (if port[0].AudioEvent? then port[0].samples else []) + PortSamples(port[1..])
  }

  lemma {:induction false} DownSamplesAppend(down: seq<Down>, m: Down)
    ensures DownSamples(down + [m]) == DownSamples(down) + if m.Packet? then m.samples else []
    decreases |down|
  {
    if down == [] {
      assert (down + [m])[1..] == [];
    } else {
      assert (down + [m])[1..] == down[1..] + [m];
      DownSamplesAppend(down[1..], m);
      var head, last := if down[0].Packet? then down[0].samples else [], if m.Packet? then m.samples else [];
      assert head + (DownSamples(down[1..]) + last) == (head + DownSamples(down[1..])) + last;
    }
  }

  lemma {:induction false} PortSamplesAppend(port: seq<R.Event>, e: R.Event)
    ensures PortSamples(port + [e]) == PortSamples(port) + if e.AudioEvent? then e.samples else []
    decreases |port|
  {
    if port == [] {
      assert (port + [e])[1..] == [];
    } else {
      assert (port + [e])[1..] == port[1..] + [e];
      PortSamplesAppend(port[1..], e);
      var head, last := if port[0].AudioEvent? then port[0].samples else [], if e.AudioEvent? then e.samples else [];
      assert head + (PortSamples(port[1..]) + last) == (head + PortSamples(port[1..])) + last;
    }
  }

  // --- the acknowledgement queue ---------------------------------------------

  datatype Mark = Mark(capacity: int, received: int, played: int)

  // The sender's view after one message; None when it would be refused or stale.
  function ReadUp(u: Setup, k: Mark, m: C.Up): Option<Mark> {
    match m
    case CreditMsg(c) =>
      if c.capacity == 2 * u.rate && k.received <= c.received && k.played <= c.played <= c.received
         && c.buffered == c.received - c.played
      then Some(Mark(c.capacity, c.received, c.played)) else None
    case ProgressMsg(p) => if p == k.played then Some(k) else None
  }

  function AfterUp(u: Setup, k: Mark, up: seq<C.Up>): Option<Mark>
    decreases |up|
  {
    if up == [] then Some(k)
    else
      match ReadUp(u, k, up[0])
      case None => None
      case Some(d) => AfterUp(u, d, up[1..])
  }

  lemma {:induction false} AfterUpAppend(u: Setup, k: Mark, up: seq<C.Up>, m: C.Up)
    ensures AfterUp(u, k, up + [m]) ==
            match AfterUp(u, k, up) case None => None case Some(d) => ReadUp(u, d, m)
    decreases |up|
  {
    if up == [] {
      assert (up + [m])[1..] == [];
    } else {
      assert (up + [m])[1..] == up[1..] + [m];
      if ReadUp(u, k, up[0]).Some? { AfterUpAppend(u, ReadUp(u, k, up[0]).value, up[1..], m); }
    }
  }

  lemma {:induction false} AfterUpForward(u: Setup, k: Mark, up: seq<C.Up>)
    requires AfterUp(u, k, up).Some?
    ensures AfterUp(u, k, up).value.received >= k.received && AfterUp(u, k, up).value.played >= k.played
    decreases |up|
  {
    if up != [] { AfterUpForward(u, ReadUp(u, k, up[0]).value, up[1..]); }
  }

  // --- the invariant ---------------------------------------------------------

  function SenderCursor(d: Sender): Cursor {
    Cursor(d.flow.reserved, d.chunk, d.packet, d.open || d.chunk >= 0, d.finished)
  }

  ghost function PlayerCursor(v: M.View): Cursor {
    Cursor(|v.stream.source|, v.lastChunk, v.lastPacket, v.stream.rate != 0, v.stream.done)
  }

  ghost function SessionCursor(u: Setup, s: System): Option<Cursor> {
    AfterPort(u, PlayerCursor(s.player.view), s.port)
  }

  // The sender's own books: the window, the timeline, and the write in progress.
  ghost predicate SenderOk(u: Setup, d: Sender) {
    && d.flow.rate == u.rate
    && (d.flow.capacity == 0 || d.flow.capacity == 2 * u.rate)
    && 0 <= d.flow.played <= d.flow.received
    && d.flow.reserved <= d.flow.played + 2 * u.rate
    && d.unrecorded >= 0 && d.timelineSent >= 0 && d.timelineSent + d.unrecorded == d.flow.reserved
    && d.timelinePlayed == Min(d.flow.played, d.timelineSent)
    && (d.finished ==> d.unrecorded == 0 && !d.open)
    && (d.chunk >= 0 ==> d.chunk < d.flow.reserved && d.packet < d.flow.reserved)
    && d.flow.reserved <= FrameLimit0(u)
    && |d.produced| == d.flow.reserved
    && d.chunk >= -1 && d.packet >= -1 && (d.chunk >= 0 <==> d.packet >= 0)
  }

  function FrameLimit0(u: Setup): int {
    if u.player.outputRate > 0 then FrameLimit(u) else 0
  }

  lemma FramesRepresentable(u: Setup, frames: int)
    requires u.player.outputRate > 0 && frames <= FrameLimit0(u)
    ensures frames <= M.MAX_SAFE_INTEGER
  {
    var m := Max(u.player.outputRate, u.rate);
    LeFloor(FrameLimit(u), M.MAX_SAFE_INTEGER, m);
    MulMono(1, m, FrameLimit(u));
  }

  // The player runs this generation and has not failed; the reports that are still
  // to be delivered are of this generation.
  ghost predicate PlayerOk(u: Setup, r: R.Run, from: nat) {
    && R.RunOk(r) && A.AckOk(r.view) && r.view.config == u.player && r.view.generation == u.generation
    && (r.view.stream.rate == 0 || r.view.stream.rate == u.rate)
    && (forall i | from <= i < |r.view.posted| :: r.view.posted[i].epoch == r.view.stream.epoch)
  }

  // Data flows in order, nothing lost or invented on the way.
  ghost predicate DataOk(u: Setup, s: System) {
    && SessionCursor(u, s).Some?
    && AfterDown(SessionCursor(u, s).value, s.down) == Some(SenderCursor(s.sender))
    && s.sender.produced == s.player.view.stream.source + PortSamples(s.port) + DownSamples(s.down)
  }

  // The session is where its messages say, and acknowledges the last report it saw.
  ghost predicate SessionOk(u: Setup, s: System) {
    && s.delivered <= |s.player.view.posted|
    && SessionCursor(u, s).Some?
    && var c := SessionCursor(u, s).value;
       var acked := A.LastAck(s.player.view.posted[..s.delivered], s.player.view.stream.epoch).source;
       match s.client
       case None => !c.format && acked == 0 && c.chunk == c.packet == -1 && c.received == 0
         && s.sender.flow.received == 0 && s.up == []
       case Some(a) =>
         && c.format && a == C.Audio(u.rate, c.received, acked, 2 * u.rate, c.chunk, c.packet)
         && AfterUp(u, Mark(s.sender.flow.capacity, s.sender.flow.received, s.sender.flow.played), s.up)
            == Some(Mark(2 * u.rate, a.received, a.played))
  }

  ghost predicate Good(u: Setup, s: System) {
    SetupOk(u) && SenderOk(u, s.sender) && PlayerOk(u, s.player, s.delivered) && DataOk(u, s) && SessionOk(u, s)
  }

  // --- consequences ----------------------------------------------------------

  // Received, played and reserved line up across all parties.
  lemma Ordered(u: Setup, s: System)
    requires Good(u, s)
    ensures var c := SessionCursor(u, s).value;
            && |s.player.view.stream.source| <= c.received <= s.sender.flow.reserved
            && s.sender.flow.received <= c.received
            && (s.client.Some? ==>
                  && s.sender.flow.played <= s.client.value.played
                  && s.client.value.played <= s.player.view.playedSource
                  && c.received - s.client.value.played <= 2 * u.rate)
  {
    AfterPortForward(u, PlayerCursor(s.player.view), s.port);
    AfterDownForward(SessionCursor(u, s).value, s.down);
    if s.client.Some? {
      AfterUpForward(u, Mark(s.sender.flow.capacity, s.sender.flow.received, s.sender.flow.played), s.up);
      AckedIsReported(s.player.view, s.delivered);
    }
  }

  // An acknowledged position was reported, hence rendered.
  lemma {:induction false} AckedIsReported(v: M.View, n: nat)
    requires Inv(v) && n <= |v.posted|
    ensures var a := A.LastAck(v.posted[..n], v.stream.epoch);
            && a.source <= v.playedSource && a.frames <= v.stream.played
            && a.source * v.config.outputRate <= a.frames * v.stream.rate
    decreases n
  {
    if n > 0 {
      var r := v.posted[n - 1];
      assert v.posted[..n][..n - 1] == v.posted[..n - 1];
      AckedIsReported(v, n - 1);
      assert WithinView(r, v) && ReportOk(r, v.config.outputRate);
      hide Inv;
      if r.playedSource == 0 { MulMono(0, r.playedFrames, v.stream.rate); }
    }
  }
}
