// The worklet player as a function of its messages: what every port message and
// every render quantum does to the playback state. The player class is proved
// to compute exactly these functions.
module PlayerModel {
  import opened Arithmetic
  import opened Options
  import opened Resampling

  const MAX_SAFE_INTEGER: int := 0x1F_FFFF_FFFF_FFFF
  const DESCRIPTORS: nat := 4096

  // capacity is in output frames; the watermarks are in milliseconds.
  datatype Config = Config(outputRate: nat, capacity: nat, startupMs: real, lowMs: real)

  // Constructor options: absent values take the default, others are clamped.
  function Bounded(value: Option<real>, fallback: real, lo: real, hi: real): (r: real)
    requires lo <= fallback <= hi
    ensures lo <= r <= hi
    ensures value.Some? && lo <= value.value <= hi ==> r == value.value
  {
    match value
    case None => fallback
    case Some(x) => if x < lo then lo else if x > hi then hi else x
  }

  function RingFrames(outputRate: nat, capacityMs: real): (frames: nat)
    requires capacityMs >= 0.0
    ensures frames >= 1
  {
    Max(1, (outputRate as real * capacityMs / 1000.0).Floor)
  }

  function MakeConfig(outputRate: nat, startupMs: Option<real>, lowMs: Option<real>, capacityMs: Option<real>): Config {
    Config(outputRate, RingFrames(outputRate, Bounded(capacityMs, 30000.0, 200.0, 30000.0)),
           Bounded(startupMs, 30.0, 0.0, 100.0), Bounded(lowMs, 10.0, 0.0, 100.0))
  }

  // Math.ceil
  function Ceil(x: real): int { -((-x).Floor) }

  datatype Kind = Credit | Progress | Completed | PauseAck | Underrun | Overflow(reason: string)

  // A message posted to the main thread. The epoch numbers generations as
  // activated, so a reused generation id does not merge two of them.
  datatype Report = Report(kind: Kind, epoch: nat, generation: string, interruption: string,
                           playedFrames: nat, sourceRate: nat, playedSource: nat, received: nat,
                           capacity: int, bufferedFrames: nat)

  // The session forwards every report but underrun and overflow as an acknowledgement.
  predicate Forwarded(kind: Kind) { kind.Credit? || kind.Progress? || kind.Completed? || kind.PauseAck? }

  // The frames of one epoch: accepted source, emitted and rendered output counts.
  datatype Stream = Stream(epoch: nat, rate: nat, source: seq<real>, emitted: nat, played: nat, done: bool)

  // Identifiers are strings, "" standing for the absent one. packets lists the
  // cumulative source end of every accepted packet, live those still described.
  datatype View = View(config: Config, generation: string, stream: Stream,
                       packets: seq<nat>, live: seq<nat>,
                       paused: bool, pauseId: string,
                       completed: bool, started: bool, rebuffering: bool,
                       playedSource: nat, lastReported: nat,
                       lastChunk: int, lastPacket: int, posted: seq<Report>)

  datatype Metadata = Metadata(sourceFrames: Option<int>, sourceStart: Option<int>,
                               speechSequence: Option<int>, audioSequence: Option<int>)

  function Initial(config: Config): View {
    View(config, "", Stream(0, 0, [], 0, 0, false), [], [], false, "", false, false, false, 0, 0, -1, -1, [])
  }

  function Reset(v: View): View {
    View(v.config, v.generation, Stream(v.stream.epoch + 1, 0, [], 0, 0, false), [], [], false, "",
         false, false, false, 0, 0, -1, -1, v.posted)
  }

  // Frames waiting in the ring.
  function Queued(v: View): int { v.stream.emitted - v.stream.played }

  // The rendered position on the source axis.
  function SourceFrames(o: nat, s: Stream): (frames: nat)
    requires o > 0
  {
    if s.rate == 0 then 0
    else if s.done && s.emitted == s.played then |s.source|
    else
      LeFloor(0, s.played * s.rate, o);
      Min(|s.source|, s.played * s.rate / o)
  }

  function SourceProgress(v: View): (frames: nat)
    requires v.config.outputRate > 0
  {
    SourceFrames(v.config.outputRate, v.stream)
  }

  // Descriptors ending at or before a position are retired from the front.
  function Retire(ends: seq<nat>, position: nat): seq<nat> {
    if ends != [] && ends[0] <= position then Retire(ends[1..], position) else ends
  }

  function UpdateProgress(v: View): (w: View)
    requires v.config.outputRate > 0
    ensures w.config == v.config
  {
    v.(playedSource := SourceProgress(v), live := Retire(v.live, SourceProgress(v)))
  }

  // The window the worklet itself advertises, in source frames.
  function AdvertisedCapacity(config: Config, rate: nat): int
    requires config.outputRate > 0
  {
    if rate == 0 then 0
    else Min(rate * 2, (config.capacity - CeilDiv(config.outputRate, rate) - 2) * rate / config.outputRate)
  }

  function Post(v: View, kind: Kind): (w: View)
    requires v.config.outputRate > 0
    ensures w.config == v.config
  {
    if v.generation == "" then v else
    var u := UpdateProgress(v);
    u.(lastReported := u.stream.played,
       posted := u.posted + [Report(kind, u.stream.epoch, u.generation, u.pauseId, u.stream.played, u.stream.rate,
                                    u.playedSource, |u.stream.source|, AdvertisedCapacity(u.config, u.stream.rate),
                                      if Queued(u) >= 0 then Queued(u) else 0)])
  }

  function SetGeneration(v: View, id: string): (w: View)
    requires v.config.outputRate > 0
    ensures w.config == v.config
  {
    if id == "" || id == v.generation then v
    else Reset(Post(v, Progress)).(generation := id)
  }

  function Clear(v: View, id: string): (w: View)
    requires v.config.outputRate > 0
    ensures w.config == v.config
  {
    if id != "" && id != v.generation then v
    else Reset(Post(v, Progress)).(generation := "")
  }

  function Fail(v: View, reason: string): (w: View)
    requires v.config.outputRate > 0
    ensures w.config == v.config
  {
    Clear(Post(v, Overflow(reason)), v.generation)
  }

  predicate ValidRate(rate: int) { 1000 <= rate <= 192000 }

  function WithRate(v: View, rate: nat): View { v.(stream := v.stream.(rate := rate)) }

  function SetFormat(v: View, id: string, rate: int): (w: View)
    requires v.config.outputRate > 0
    ensures w.config == v.config
  {
    if id != v.generation || v.stream.done then v
    else if !ValidRate(rate) || (v.stream.rate != 0 && v.stream.rate != rate) then Fail(v, "invalid_format")
    else Post(WithRate(v, rate), Credit)
  }

  predicate SafeInteger(n: int) { -MAX_SAFE_INTEGER <= n <= MAX_SAFE_INTEGER }

  predicate AudioConsistent(v: View, samples: seq<real>, rate: int, meta: Metadata) {
    && ValidRate(rate)
    && (v.stream.rate == 0 || rate == v.stream.rate)
    && (meta.sourceFrames.Some? ==> meta.sourceFrames.value == |samples|)
    && (meta.sourceStart.Some? ==> meta.sourceStart.value == |v.stream.source|)
  }

  predicate NextPacket(lastChunk: int, lastPacket: int, chunk: int, packet: int) {
    if chunk == lastChunk then packet == lastPacket + 1 else chunk == lastChunk + 1 && packet == 0
  }

  predicate PacketInOrder(v: View, meta: Metadata) {
    meta.speechSequence.Some? ==>
      && meta.audioSequence.Some?
      && SafeInteger(meta.speechSequence.value) && SafeInteger(meta.audioSequence.value)
      && meta.speechSequence.value >= 0 && meta.audioSequence.value >= 0
      && NextPacket(v.lastChunk, v.lastPacket, meta.speechSequence.value, meta.audioSequence.value)
  }

  // The admission check: the resampled total, tail included, must fit.
  predicate Admits(v: View, total: nat, rate: nat)
    requires rate > 0
  {
    && total <= MAX_SAFE_INTEGER / Max(v.config.outputRate, rate)
    && Target(total, rate, v.config.outputRate) - v.stream.played <= v.config.capacity
    && |v.live| != DESCRIPTORS
  }

  function Accept(v: View, samples: seq<real>, rate: nat): View
    requires rate > 0
  {
    var total := |v.stream.source| + |samples|;
    v.(stream := v.stream.(rate := rate, source := v.stream.source + samples,
                           emitted := Emitted(total, rate, v.config.outputRate)),
       packets := v.packets + [total], live := v.live + [total])
  }

  // The packet is remembered as the last one before the admission check.
  function Stamp(v: View, rate: nat, meta: Metadata): (w: View)
    requires PacketInOrder(v, meta)
    ensures w.config == v.config
  {
    if meta.speechSequence.Some?
    then v.(lastChunk := meta.speechSequence.value, lastPacket := meta.audioSequence.value,
            stream := v.stream.(rate := rate))
    else WithRate(v, rate)
  }

  function Admit(v: View, samples: seq<real>, rate: nat): (w: View)
    requires v.config.outputRate > 0 && rate > 0
    ensures w.config == v.config
  {
    if !Admits(v, |v.stream.source| + |samples|, rate) then Fail(v, "capacity")
    else Post(Accept(v, samples, rate), Credit)
  }

  function Deliver(v: View, samples: seq<real>, rate: nat, meta: Metadata): (w: View)
    requires v.config.outputRate > 0 && rate > 0
    ensures w.config == v.config
  {
    if !PacketInOrder(v, meta) then Fail(v, "invalid_packet_order")
    else Admit(Stamp(v, rate, meta), samples, rate)
  }

  function Enqueue(v: View, id: string, samples: seq<real>, rate: int, meta: Metadata): (w: View)
    requires v.config.outputRate > 0
    ensures w.config == v.config
  {
    if id == "" || id != v.generation || v.stream.done || samples == [] then v
    else if !AudioConsistent(v, samples, rate, meta) then Fail(v, "invalid_audio")
    else Deliver(v, samples, rate, meta)
  }

  function CheckDrain(v: View): (w: View)
    requires v.config.outputRate > 0
    ensures w.config == v.config
  {
    if v.stream.done && Queued(v) == 0 && !v.completed
    then Post(Post(v.(completed := true), Progress), Completed)
    else v
  }

  // The last sample is held through the final fractional source interval.
  function Ended(v: View): (w: View)
    requires v.stream.source != [] ==> v.stream.rate > 0
    ensures w.config == v.config
  {
    v.(stream := v.stream.(done := true,
         emitted := if v.stream.source != [] then Target(|v.stream.source|, v.stream.rate, v.config.outputRate)
                    else v.stream.emitted))
  }

  function Finish(v: View, id: string, sourceFrames: Option<int>): (w: View)
    requires v.config.outputRate > 0 && (v.stream.source != [] ==> v.stream.rate > 0)
    ensures w.config == v.config
  {
    if id == "" || id != v.generation || v.stream.done then v
    else if sourceFrames.Some? && sourceFrames.value != |v.stream.source| then Fail(v, "incomplete_source_stream")
    else
      CheckDrain(Ended(v))
  }

  function Pause(v: View, id: string, token: string): (w: View)
    requires v.config.outputRate > 0
    ensures w.config == v.config
  {
    if id == "" || id != v.generation || token == "" then v
    else Post(v.(paused := true, pauseId := token), PauseAck)
  }

  function Resume(v: View, id: string, token: string): View {
    if id == "" || id != v.generation || !v.paused || token != v.pauseId then v
    else v.(paused := false, pauseId := "")
  }

  function Threshold(v: View): int {
    Ceil(v.config.outputRate as real * (if v.rebuffering then v.config.lowMs else v.config.startupMs) / 1000.0)
  }

  // A report is due every max(128, outputRate / 20) rendered frames.
  predicate ReportDue(config: Config, lag: int) { lag >= 128 && 20 * lag >= config.outputRate }

  predicate Renders(v: View) {
    && v.generation != "" && !v.paused && !v.completed
    && !((!v.started || v.rebuffering) && !v.stream.done && Queued(v) < Threshold(v))
  }

  // Frames read out of the ring by one render quantum.
  function RenderCount(v: View, frames: nat): (count: nat)
    requires Queued(v) >= 0
  {
    if Renders(v) then Min(frames, Queued(v)) else 0
  }

  function Advanced(v: View, count: nat): (w: View)
    ensures w.config == v.config
  {
    var stream := v.stream.(played := v.stream.played + count);
    if Queued(v) > 0 then v.(started := true, rebuffering := false, stream := stream) else v.(stream := stream)
  }

  function Render(v: View, count: nat): (w: View)
    requires v.config.outputRate > 0
    ensures w.config == v.config
  {
    UpdateProgress(Advanced(v, count))
  }

  // Running dry before generation.done is an underrun, reported once per gap.
  function NoteUnderrun(v: View, count: nat, frames: nat): (w: View)
    requires v.config.outputRate > 0
    ensures w.config == v.config
  {
    if v.started && count < frames && !v.stream.done && !v.rebuffering
    then Post(v.(rebuffering := true), Underrun)
    else v
  }

  function NoteProgress(v: View, count: nat): (w: View)
    requires v.config.outputRate > 0
    ensures w.config == v.config
  {
    if count > 0 && (Queued(v) == 0 || ReportDue(v.config, v.stream.played - v.lastReported)) then Post(v, Progress)
       else v
  }

  function Process(v: View, frames: nat): (w: View)
    requires v.config.outputRate > 0 && Queued(v) >= 0
    ensures w.config == v.config
  {
    if !Renders(v) then v
    else
      var count := RenderCount(v, frames);
      CheckDrain(NoteProgress(NoteUnderrun(Render(v, count), count, frames), count))
  }
}
