// The server's packetisation of one synthesized chunk under flow control.
module Sender {
  import opened Arithmetic
  import opened Flow

  const MAX_PACKET_BYTES: nat := 16384

  // Synthesized audio is mono 16-bit PCM; anything else is refused beforehand.
  const FRAME_BYTES: nat := 2

  // An output packet: its place in the chunk, on the source axis, and its bytes.
  datatype Packet<T> = Packet(sequence: nat, start: int, data: seq<T>)

  datatype Outcome = Sent | Aborted

  // What the environment does around one packet: the context may have ended, and
  // the wait for credit is woken as scripted.
  datatype Round = Round(cancelled: bool, waits: seq<Wake>)

  function Joined<T>(packets: seq<Packet<T>>): seq<T> {
    if packets == [] then [] else Joined(packets[..|packets| - 1]) + packets[|packets| - 1].data
  }

  // Packets are numbered from zero, hold whole frames, fit the wire limit and
  // continue each other on the source axis.
  ghost predicate Tiles<T>(packets: seq<Packet<T>>, start: int)
  {
    forall i | 0 <= i < |packets| ::
      && packets[i].sequence == i
      && 0 < |packets[i].data| <= MAX_PACKET_BYTES && |packets[i].data| % FRAME_BYTES == 0
      && packets[i].start == start + |Joined(packets[..i])| / FRAME_BYTES
  }

  // While the sender waits others report and acknowledge; only it reserves.
  predicate NoReservation(ops: seq<Op>) { forall i | 0 <= i < |ops| :: !ops[i].ReserveOp? }

  predicate OnlyReports(waits: seq<Wake>) {
    forall i | 0 <= i < |waits| :: waits[i].Changed? ==> NoReservation(waits[i].ops)
  }

  lemma {:induction false} RunReserves(s: FlowState, ops: seq<Op>)
    requires NoReservation(ops)
    ensures Run(s, ops).reserved == s.reserved
    decreases |ops|
  {
    if ops != [] { RunReserves(Apply(s, ops[0]), ops[1..]); }
  }

  lemma SeenReports(waits: seq<Wake>, seen: seq<Op>)
    requires OnlyReports(waits) && forall op | op in seen :: Scripted(waits, op)
    ensures NoReservation(seen)
  {
    forall i | 0 <= i < |seen| ensures !seen[i].ReserveOp? {
      assert seen[i] in seen;
      var k :| 0 <= k < |waits| && waits[k].Changed? && seen[i] in waits[k].ops;
    }
  }

  lemma TilesAppend<T>(packets: seq<Packet<T>>, p: Packet<T>, start: int)
    requires Tiles(packets, start)
    requires p.sequence == |packets| && 0 < |p.data| <= MAX_PACKET_BYTES && |p.data| % FRAME_BYTES == 0
    requires p.start == start + |Joined(packets)| / FRAME_BYTES
    ensures Tiles(packets + [p], start)
    ensures Joined(packets + [p]) == Joined(packets) + p.data
  {
    var all := packets + [p];
    assert all[..|all| - 1] == packets;
    forall i | 0 <= i < |all| ensures all[..i] == (if i < |packets| then packets[..i] else packets) {}
  }

  // Nothing more can be written: the context ended or there is no credit.
  ghost predicate Stuck(round: Round, s: FlowState) { round.cancelled || Available(s) <= 0 }

  // A packet takes all the wire allows, all there is, or all the window holds.
  ghost predicate Filled(frames: nat, remaining: nat, s: FlowState) {
    frames * FRAME_BYTES == Min(remaining, MAX_PACKET_BYTES) || Available(s) == 0
  }

  // Credit for the next packet of a chunk: none when the context or the wait ended.
  method NextPacket(remaining: nat, flow: FlowController, round: Round) returns (frames: nat)
    requires remaining > 0 && remaining % FRAME_BYTES == 0 && OnlyReports(round.waits)
    modifies flow
    ensures frames * FRAME_BYTES <= Min(remaining, MAX_PACKET_BYTES)
    ensures flow.reserved == old(flow.reserved) + frames
    ensures frames == 0 ==> Stuck(round, flow.State())
    ensures frames > 0 ==> !round.cancelled && Filled(frames, remaining, flow.State())
  {
    if round.cancelled { return 0; }
    var bytes := MAX_PACKET_BYTES;
    if bytes > remaining { bytes := remaining; }
    if bytes < remaining { bytes := bytes - bytes % FRAME_BYTES; }
    assert bytes > 0;
    ghost var before := flow.State();
    var grant, seen := flow.Reserve(bytes / FRAME_BYTES, false, round.waits);
    SeenReports(round.waits, seen);
    RunReserves(before, seen);
    return if grant.GrantedFrames? then grant.frames else 0;
  }

  // The loop over one chunk. Whatever it wrote before stopping is the start of
  // the data, cut into whole-frame packets that continue each other from the
  // reserved position, and the window is reserved for exactly those frames; all
  // of the data is written exactly when it reports success, and it gives up for want of
  // credit or because its context ended.
  method SendChunk<T>(data: seq<T>, flow: FlowController, rounds: seq<Round>)
      returns (outcome: Outcome, packets: seq<Packet<T>>)
    requires |data| % FRAME_BYTES == 0
    requires forall i | 0 <= i < |rounds| :: OnlyReports(rounds[i].waits)
    modifies flow
    ensures Tiles(packets, old(flow.reserved))
    ensures Joined(packets) <= data && |Joined(packets)| % FRAME_BYTES == 0
    ensures flow.reserved == old(flow.reserved) + |Joined(packets)| / FRAME_BYTES
    ensures outcome == Sent <==> Joined(packets) == data
    ensures outcome == Aborted && |packets| < |rounds| ==> Stuck(rounds[|packets|], flow.State())
  {
    hide OnlyReports, Stuck, Filled;
    outcome, packets := Sent, [];
    var offset, sequence := 0, 0;
    assert Tiles(packets, flow.reserved) && Joined(packets) == data[..0];
    hide Tiles, Joined, OnlyReports, Available;
    while offset < |data|
      invariant 0 <= offset <= |data| && offset % FRAME_BYTES == 0
      invariant sequence == |packets| && Joined(packets) == data[..offset]
      invariant Tiles(packets, old(flow.reserved))
      invariant flow.reserved == old(flow.reserved) + offset / FRAME_BYTES
      invariant outcome == Sent
    {
      if sequence >= |rounds| { return Aborted, packets; }
      var frames := NextPacket(|data| - offset, flow, rounds[sequence]);
      if frames == 0 { return Aborted, packets; }
      var end := offset + frames * FRAME_BYTES;
      var p := Packet(sequence, flow.reserved - frames, data[offset..end]);
      assert data[..end] == data[..offset] + p.data;
      TilesAppend(packets, p, old(flow.reserved));
      packets, sequence, offset := packets + [p], sequence + 1, end;
    }
  }
}
