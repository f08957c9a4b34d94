// The SDK session's audio bookkeeping: what it accepts from the wire and the
// credit and progress messages it answers with.
module Client {
  import opened Options
  import opened Flow

  // Positions of the current generation's audio; capacity is always two seconds.
  datatype Audio = Audio(rate: nat, received: int, played: int, capacity: int, chunk: int, packet: int)

  datatype Metadata = Metadata(speechSequence: int, audioSequence: int, bytes: int, sourceFrames: int,
                               sourceStart: int, sampleRate: int, channels: int, bitsPerSample: int)

  datatype Failure = UnsupportedFormat | RateChanged | UnexpectedBinary | LengthMismatch | OrderMismatch
                   | WindowExceeded | InvalidPosition | IncompleteStream | MissingBinary
                   | MissingGeneration | UnwantedAudio

  datatype Result<+T> = Ok(value: T) | Err(failure: Failure)

  datatype Up = CreditMsg(credit: Credit) | ProgressMsg(played: int)

  const MAX_SAFE_INTEGER: int := 0x1F_FFFF_FFFF_FFFF

  predicate Safe(n: int) { -MAX_SAFE_INTEGER <= n <= MAX_SAFE_INTEGER }

  function Opened(rate: nat): Audio { Audio(rate, 0, 0, rate * 2, -1, -1) }

  function SnapshotOf(a: Audio): Credit { Credit(a.capacity, a.received, a.played, a.received - a.played) }

  // response.audio.chunk.started
  function ChunkStarted(a: Option<Audio>, rate: int, channels: int, bits: int): Result<Audio> {
    if channels != 1 || bits != 16 || !(1000 <= rate <= 192000) then Err(UnsupportedFormat)
    else
      match a
      case None => Ok(Opened(rate))
      case Some(x) => if x.rate != rate then Err(RateChanged) else Ok(x)
  }

  predicate WholePacket(m: Metadata, bytes: nat) {
    && bytes == m.bytes && bytes == m.sourceFrames * 2 && m.channels == 1 && m.bitsPerSample == 16
    && Safe(m.sourceFrames) && m.sourceFrames > 0
  }

  predicate NextInOrder(a: Audio, m: Metadata) {
    && m.sampleRate == a.rate && m.sourceStart == a.received && Safe(m.speechSequence) && Safe(m.audioSequence)
    && (if m.speechSequence == a.chunk then m.audioSequence == a.packet + 1
        else m.speechSequence == a.chunk + 1 && m.audioSequence == 0)
  }

  function Counted(a: Audio, m: Metadata): Audio {
    a.(received := a.received + m.sourceFrames, chunk := m.speechSequence, packet := m.audioSequence)
  }

  // The binary half of a metadata/PCM pair of the current generation.
  function PacketReceived(a: Option<Audio>, m: Metadata, bytes: nat): Result<Audio> {
    if !WholePacket(m, bytes) then Err(LengthMismatch)
    else
      match a
      case None => Err(OrderMismatch)
      case Some(x) =>
        if !NextInOrder(x, m) then Err(OrderMismatch)
        else
          var y := Counted(x, m);
          if y.received - y.played > y.capacity then Err(WindowExceeded) else Ok(y)
  }

  // ackPlayed: a position beyond what was received is an error, an older one is ignored.
  function PlayedTo(a: Audio, position: int): Result<Audio> {
    if !Safe(position) || position < 0 || position > a.received then Err(InvalidPosition)
    else if position < a.played then Ok(a)
    else Ok(a.(played := position))
  }

  // Positions that the session itself never breaks.
  ghost predicate PositionsOk(a: Audio) { 0 <= a.played <= a.received }

  lemma PositionsKept(a: Audio, m: Metadata, bytes: nat, position: int)
    requires PositionsOk(a)
    ensures PacketReceived(Some(a), m, bytes).Ok? ==> PositionsOk(PacketReceived(Some(a), m, bytes).value)
    ensures PlayedTo(a, position).Ok? ==> PositionsOk(PlayedTo(a, position).value)
  {}

  datatype Phase = Generating | Done | Cancelled

  // The text messages that bear on audio; of any other only the order matters.
  datatype Message =
    | GenerationCreated(id: string)
    | GenerationCancelled(id: string)
    | GenerationDone(id: string, total: Option<int>)
    | AudioChunkStarted(id: string, rate: int, channels: int, bits: int)
    | AudioDelta(id: string, metadata: Metadata)
    | AnyOther

  // What the session knows of its audio, and all it has sent.
  datatype Known = Known(generation: string, phase: Phase, audio: Option<Audio>, pending: Option<(string, Metadata)>,
                         sent: seq<Up>)

  // One text message: the outcome and what is known afterwards. A refused message
  // changes nothing, and so does one that concerns another generation.
  function Dispatched(transcriptionOnly: bool, k: Known, m: Message): (Result<()>, Known) {
    var current := k.generation != "";
    if k.pending.Some? then (Err(MissingBinary), k)
    else
      match m
      case GenerationCreated(id) =>
        if id == "" then (Err(MissingGeneration), k)
        else (Ok(()), k.(generation := id, phase := Generating, audio := None))
      case GenerationCancelled(id) =>
        if !current || id != k.generation then (Ok(()), k)
        else (Ok(()), k.(phase := if k.phase == Done then Done else Phase.Cancelled, audio := None))
      case GenerationDone(id, total) =>
        if !current || id != k.generation then (Ok(()), k)
        else if total.Some? && total.value != (if k.audio.Some? then k.audio.value.received else 0)
        then (Err(IncompleteStream), k)
        else (Ok(()), k.(phase := if k.phase == Phase.Cancelled then Phase.Cancelled else Done))
      case AudioChunkStarted(id, rate, channels, bits) =>
        if !current || id != k.generation || k.phase == Phase.Cancelled then (Ok(()), k)
        else (
          match ChunkStarted(k.audio, rate, channels, bits)
          case Err(f) => (Err(f), k)
          case Ok(a) => (Ok(()), k.(audio := Some(a),
                                    sent := if k.audio.None? then k.sent + [CreditMsg(SnapshotOf(a))] else k.sent)))
      case AudioDelta(id, metadata) =>
        if transcriptionOnly then (Err(UnwantedAudio), k) else (Ok(()), k.(pending := Some((id, metadata))))
      case AnyOther => (Ok(()), k)
  }

  // The session object: audio pairing state and an outgoing message log. No
  // generation is the empty identifier.
  class Session {
    const transcriptionOnly: bool
    var generation: string
    var phase: Phase
    var audio: Option<Audio>
    var pending: Option<(string, Metadata)>
    ghost var sent: seq<Up>

    constructor (transcriptionOnly: bool)
      ensures this.transcriptionOnly == transcriptionOnly
      ensures generation == "" && phase == Generating && audio == None && pending == None && sent == []
    {
      this.transcriptionOnly := transcriptionOnly;
      generation, phase, audio, pending, sent := "", Generating, None, None, [];
    }

    ghost function State(): Known
      reads this
    {
      Known(generation, phase, audio, pending, sent)
    }

    predicate Current(id: string)
      reads this
    {
      generation != "" && id == generation
    }

    // A pair, once begun, is completed by a binary message and nothing else: any
    // text message before that is refused and changes nothing.
    method Receive(m: Message) returns (r: Result<()>)
      modifies this
      ensures (r, State()) == Dispatched(transcriptionOnly, old(State()), m)
      ensures generation != old(generation) ==> m == GenerationCreated(generation)
      ensures old(pending).Some? ==> r == Err(MissingBinary) && unchanged(this)
      ensures old(pending).None? ==>
        if m.AudioDelta? && !transcriptionOnly then r == Ok(()) && pending == Some((m.id, m.metadata))
        else pending == None
      ensures r.Ok? && m.GenerationDone? && old(Current(m.id)) && m.total.Some? ==>
        m.total.value == match audio case None => 0 case Some(a) => a.received
    {
      if pending.Some? { return Err(MissingBinary); }
      match m
      case GenerationCreated(id) => r := OnGenerationCreated(id);
      case GenerationCancelled(id) => OnGenerationCancelled(id); r := Ok(());
      case GenerationDone(id, total) => r := OnGenerationDone(id, total);
      case AudioChunkStarted(id, rate, channels, bits) => r := OnChunkStarted(id, rate, channels, bits);
      case AudioDelta(id, metadata) => r := OnAudioDelta(id, metadata);
      case AnyOther => r := Ok(());
    }

    method OnGenerationCreated(id: string) returns (r: Result<()>)
      modifies this`generation, this`phase, this`audio
      ensures id == "" ==> r == Err(MissingGeneration) && unchanged(this)
      ensures id != "" ==> r == Ok(()) && generation == id && phase == Generating && audio == None
    {
      if id == "" { return Err(MissingGeneration); }
      audio := None;
      generation, phase := id, Generating;
      return Ok(());
    }

    // A generation that is done stays done, but its audio goes all the same.
    method OnGenerationCancelled(id: string)
      modifies this`phase, this`audio
      ensures Current(id) ==> phase == (if old(phase) == Done then Done else Phase.Cancelled) && audio == None
      ensures !Current(id) ==> unchanged(this)
    {
      if Current(id) {
        if phase == Generating { phase := Phase.Cancelled; }
        audio := None;
      }
    }

    method OnGenerationDone(id: string, total: Option<int>) returns (r: Result<()>)
      modifies this`phase
      ensures !Current(id) ==> r == Ok(()) && unchanged(this)
      ensures Current(id) ==>
        var received := match audio case None => 0 case Some(a) => a.received;
        if total.Some? && total.value != received then r == Err(IncompleteStream) && unchanged(this)
        else r == Ok(()) && phase == (if old(phase) == Phase.Cancelled then Phase.Cancelled else Done)
    {
      if !Current(id) { return Ok(()); }
      var received := 0;
      if audio.Some? { received := audio.value.received; }
      if total.Some? && total.value != received { return Err(IncompleteStream); }
      if phase == Generating { phase := Done; }
      return Ok(());
    }

    method SendCredit()
      modifies this`sent
      ensures sent == match audio case None => old(sent) case Some(a) => old(sent) + [CreditMsg(SnapshotOf(a))]
    {
      if audio.Some? {
        var a := audio.value;
        sent := sent + [CreditMsg(Credit(a.capacity, a.received, a.played, a.received - a.played))];
      }
    }

    method OnChunkStarted(gen: string, rate: int, channels: int, bits: int) returns (r: Result<()>)
      modifies this`audio, this`sent
      ensures !Current(gen) || phase == Phase.Cancelled ==> r == Ok(()) && unchanged(this)
      ensures Current(gen) && phase != Phase.Cancelled ==>
        match ChunkStarted(old(audio), rate, channels, bits)
        case Err(f) => r == Err(f) && audio == old(audio) && sent == old(sent)
        case Ok(a) =>
          && r == Ok(()) && audio == Some(a)
          && sent == (if old(audio).None? then old(sent) + [CreditMsg(SnapshotOf(a))] else old(sent))
    {
      if !Current(gen) || phase == Phase.Cancelled { return Ok(()); }
      if channels != 1 || bits != 16 || rate < 1000 || rate > 192000 { return Err(UnsupportedFormat); }
      if audio.None? {
        audio := Some(Audio(rate, 0, 0, rate * 2, -1, -1));
        SendCredit();
      } else if audio.value.rate != rate {
        return Err(RateChanged);
      }
      return Ok(());
    }

    method OnAudioDelta(gen: string, m: Metadata) returns (r: Result<()>)
      modifies this`pending
      ensures transcriptionOnly ==> r == Err(UnwantedAudio) && pending == old(pending)
      ensures !transcriptionOnly ==> r == Ok(()) && pending == Some((gen, m))
    {
      if transcriptionOnly { return Err(UnwantedAudio); }
      pending := Some((gen, m));
      return Ok(());
    }

    // A binary message completes the pending pair; a pair of another generation
    // is consumed and dropped. Receipt alone never moves the played position. A
    // packet refused for its size or place leaves the audio as it was, one that
    // exceeds the window has been counted.
    method OnBinary(bytes: nat) returns (r: Result<bool>)
      modifies this`pending, this`audio, this`sent
      ensures pending == None
      ensures old(pending).None? ==> r == Err(UnexpectedBinary) && audio == old(audio) && sent == old(sent)
      ensures old(pending).Some? && !WholePacket(old(pending).value.1, bytes) ==>
        r == Err(LengthMismatch) && audio == old(audio) && sent == old(sent)
      ensures old(pending).Some? && WholePacket(old(pending).value.1, bytes)
              && (!Current(old(pending).value.0) || phase == Phase.Cancelled) ==>
        r == Ok(false) && audio == old(audio) && sent == old(sent)
      ensures old(pending).Some? && Current(old(pending).value.0) && phase != Phase.Cancelled ==>
        match PacketReceived(old(audio), old(pending).value.1, bytes)
        case Err(f) =>
          && r == Err(f) && sent == old(sent)
          && audio == (if f == WindowExceeded then Some(Counted(old(audio).value, old(pending).value.1))
                       else old(audio))
        case Ok(a) => r == Ok(true) && audio == Some(a) && sent == old(sent) + [CreditMsg(SnapshotOf(a))]
    {
      var p := pending;
      pending := None;
      if p.None? { return Err(UnexpectedBinary); }
      var (gen, m) := p.value;
      if bytes != m.bytes || bytes != m.sourceFrames * 2 || m.channels != 1 || m.bitsPerSample != 16
         || !Safe(m.sourceFrames) || m.sourceFrames <= 0 {
        return Err(LengthMismatch);
      }
      if !Current(gen) || phase == Phase.Cancelled { return Ok(false); }
      if audio.None? { return Err(OrderMismatch); }
      var a := audio.value;
      if m.sampleRate != a.rate || m.sourceStart != a.received || !Safe(m.speechSequence) || !Safe(m.audioSequence)
         || (if m.speechSequence == a.chunk then m.audioSequence != a.packet + 1
             else m.speechSequence != a.chunk + 1 || m.audioSequence != 0) {
        return Err(OrderMismatch);
      }
      a := a.(received := a.received + m.sourceFrames, chunk := m.speechSequence, packet := m.audioSequence);
      audio := Some(a);
      if a.received - a.played > a.capacity { return Err(WindowExceeded); }
      SendCredit();
      return Ok(true);
    }

    method AckPlayed(position: int, gen: string) returns (r: Result<()>)
      modifies this`audio, this`sent
      ensures audio.None? <==> old(audio).None?
      ensures old(audio).None? || gen != generation ==> r == Ok(()) && audio == old(audio) && sent == old(sent)
      ensures old(audio).Some? && gen == generation ==>
        match PlayedTo(old(audio).value, position)
        case Err(f) => r == Err(f) && audio == old(audio) && sent == old(sent)
        case Ok(a) =>
          && r == Ok(()) && audio == Some(a)
          && sent == (if position < old(audio).value.played then old(sent)
                      else old(sent) + [CreditMsg(SnapshotOf(a)), ProgressMsg(a.played)])
    {
      if audio.None? || gen != generation { return Ok(()); }
      var a := audio.value;
      if !Safe(position) || position < 0 || position > a.received { return Err(InvalidPosition); }
      if position < a.played { return Ok(()); }
      audio := Some(a.(played := position));
      SendCredit();
      sent := sent + [ProgressMsg(position)];
      return Ok(());
    }
  }
}
