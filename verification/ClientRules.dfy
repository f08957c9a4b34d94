// What the SDK session takes from the wire, and what it refuses for which reason.
module ClientRules {
  import opened Options
  import opened Client

  const LARGEST: int := 9007199254740991

  // A format: mono, sixteen bits, at most 192 kHz, and the same within a generation.
  lemma StartExact(a: Option<Audio>, rate: int, channels: int, bits: int)
    ensures ChunkStarted(a, rate, channels, bits) ==
            if channels != 1 || bits != 16 || rate < 1000 || rate > 192000 then Err(UnsupportedFormat)
            else
              match a
              case None => Ok(Audio(rate, 0, 0, 2 * rate, -1, -1))
              case Some(x) => if rate == x.rate then Ok(x) else Err(RateChanged)
  {
  }

  // The metadata tells the binary: so many whole frames, and at least one.
  predicate TellsBytes(m: Metadata, bytes: nat) {
    && m.bytes == bytes && 2 * m.sourceFrames == bytes && 0 < m.sourceFrames <= LARGEST
    && m.channels == 1 && m.bitsPerSample == 16
  }

  // The packet continues the audio: its chunk, or the first packet of the next one.
  predicate Continues(a: Audio, m: Metadata) {
    && m.sampleRate == a.rate && m.sourceStart == a.received
    && -LARGEST <= m.speechSequence <= LARGEST && -LARGEST <= m.audioSequence <= LARGEST
    && ((m.speechSequence == a.chunk && m.audioSequence == a.packet + 1)
        || (m.speechSequence != a.chunk && m.speechSequence == a.chunk + 1 && m.audioSequence == 0))
  }

  // A packet is taken if it is whole, continues the audio and stays within the window;
  // receipt moves the received position and no other.
  lemma PacketExact(a: Option<Audio>, m: Metadata, bytes: nat)
    ensures var r := PacketReceived(a, m, bytes);
            if !TellsBytes(m, bytes) then r == Err(LengthMismatch)
            else if a.None? || !Continues(a.value, m) then r == Err(OrderMismatch)
            else if a.value.received + m.sourceFrames > a.value.played + a.value.capacity then r == Err(WindowExceeded)
            else r == Ok(a.value.(received := a.value.received + m.sourceFrames, chunk := m.speechSequence,
                                  packet := m.audioSequence))
  {
  }

  // A position that was received is played, unless a later one is known already.
  lemma PlayedExact(a: Audio, position: int)
    ensures PlayedTo(a, position) ==
            if position < 0 || position > LARGEST || position > a.received then Err(InvalidPosition)
            else Ok(a.(played := if position < a.played then a.played else position))
  {
  }

  // The snapshot tells the window, both positions, and what is waiting between them.
  lemma SnapshotExact(a: Audio)
    ensures var c := SnapshotOf(a);
            c.capacity == a.capacity && c.received == a.received && c.played == a.played
              && c.buffered + a.played == a.received
  {
  }
}
