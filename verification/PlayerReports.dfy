// What the player tells the main thread: which reports every message and every
// quantum posts, why, and what they say.
module PlayerReports {
  import opened Arithmetic
  import opened Options
  import opened Resampling
  import opened PlayerModel
  import opened PlayerInvariant
  import opened PlayerRuns
  import opened PlayerAudible

  function Kinds(reports: seq<Report>): seq<Kind> { seq(|reports|, i requires 0 <= i < |reports| => reports[i].kind) }

  // What was posted between two states.
  ghost function News(v: View, w: View): seq<Report>
    requires |v.posted| <= |w.posted|
  {
    w.posted[|v.posted|..]
  }

  // A report tells the counts of a state: what was rendered, received and is queued.
  ghost predicate Tells(r: Report, v: View)
    requires v.config.outputRate > 0
  {
    && r.epoch == v.stream.epoch && r.generation == v.generation && r.interruption == v.pauseId
    && r.playedFrames == v.stream.played && r.received == |v.stream.source| && r.bufferedFrames == Queued(v)
    && r.sourceRate == v.stream.rate && r.playedSource == SourceProgress(v)
    && r.capacity == AdvertisedCapacity(v.config, v.stream.rate)
  }

  // Exactly these kinds were posted, and they tell this state.
  ghost predicate Posts(v: View, w: View, kinds: seq<Kind>, told: View) {
    && told.config.outputRate > 0 && v.posted <= w.posted && Kinds(News(v, w)) == kinds
    && forall i | 0 <= i < |News(v, w)| :: Tells(News(v, w)[i], told)
  }

  lemma PostPosts(v: View, kind: Kind)
    requires v.config.outputRate > 0 && Queued(v) >= 0
    ensures Posts(v, Post(v, kind), if v.generation == "" then [] else [kind], v)
    ensures Post(v, kind) == v.(playedSource := Post(v, kind).playedSource, live := Post(v, kind).live,
                                lastReported := if v.generation == "" then v.lastReported else v.stream.played,
                                posted := Post(v, kind).posted)
  {
    assert News(v, v) == [];
    assert Kinds([]) == [];
    if v.generation != "" {
      var w := Post(v, kind);
      var r := w.posted[|v.posted|];
      assert News(v, w) == [r];
      assert Kinds([r]) == [kind];
    }
  }

  lemma PostsTwice(a: View, b: View, c: View, first: seq<Kind>, second: seq<Kind>, told: View)
    requires Posts(a, b, first, told) && Posts(b, c, second, told)
    ensures Posts(a, c, first + second, told)
  {
    assert News(a, c) == News(a, b) + News(b, c);
    assert Kinds(News(a, c)) == first + second;
    hide Tells;
  }

  // Counts that a report tells.
  ghost predicate SameCounts(v: View, w: View) {
    w.stream == v.stream && w.generation == v.generation && w.pauseId == v.pauseId && w.config == v.config
  }

  lemma ToldSame(a: View, b: View, kinds: seq<Kind>, told: View, state: View)
    requires Posts(a, b, kinds, told) && SameCounts(told, state)
    ensures Posts(a, b, kinds, state)
  {
    forall i | 0 <= i < |News(a, b)| ensures Tells(News(a, b)[i], state) { assert Tells(News(a, b)[i], told); }
  }

  lemma SamePosts(a: View, b: View, c: View, kinds: seq<Kind>, told: View)
    requires Posts(a, b, kinds, told)
    ensures a.posted == c.posted ==> Posts(c, b, kinds, told)
    ensures b.posted == c.posted ==> Posts(a, c, kinds, told)
  {
    hide Tells;
  }

  function FailKinds(v: View, reason: string): seq<Kind> {
    if v.generation == "" then [] else [Overflow(reason), Progress]
  }

  // --- quanta -----------------------------------------------------------------

  // A quantum runs dry, before the source is done, with something begun.
  predicate OpensGap(v: View, frames: nat, count: nat) {
    !v.stream.done && count < frames && (v.started || count > 0) && !(v.rebuffering && count == 0)
  }

  // The part of rendered output not yet reported.
  function Lag(v: View, frames: nat, count: nat): int {
    if OpensGap(v, frames, count) then 0 else v.stream.played + count - v.lastReported
  }

  predicate Drains(v: View, count: nat) { v.stream.done && Queued(v) == count }

  function QuantumKinds(v: View, frames: nat, count: nat): seq<Kind> {
    (if OpensGap(v, frames, count) then [Underrun] else [])
    + (if count > 0 && (Queued(v) == count || (Lag(v, frames, count) >= 128
                                               && 20 * Lag(v, frames, count) >= v.config.outputRate))
       then [Progress] else [])
    + if Drains(v, count) then [Progress, Completed] else []
  }

  lemma RenderIs(v: View, count: nat)
    requires v.config.outputRate > 0 && Queued(v) >= 0
    ensures var r := Render(v, count);
            && r.posted == v.posted && r.lastReported == v.lastReported && r.generation == v.generation
            && r.pauseId == v.pauseId && r.config == v.config && r.completed == v.completed
            && r.stream == v.stream.(played := v.stream.played + count)
            && (count <= Queued(v) ==> Queued(r) == Queued(v) - count)
            && (if Queued(v) > 0 then r.started && !r.rebuffering
                else r.started == v.started && r.rebuffering == v.rebuffering)
  {
  }

  lemma UnderrunPosts(v: View, count: nat, frames: nat)
    requires v.config.outputRate > 0 && Queued(v) >= 0 && v.generation != ""
    ensures var w := NoteUnderrun(v, count, frames);
            var dry := v.started && count < frames && !v.stream.done && !v.rebuffering;
            && Posts(v, w, if dry then [Underrun] else [], v) && SameCounts(v, w) && w.completed == v.completed
            && w.lastReported == if dry then v.stream.played else v.lastReported
  {
    assert News(v, v) == [] && Kinds([]) == [];
    var r := v.(rebuffering := true);
    PostPosts(r, Underrun);
    ToldSame(r, Post(r, Underrun), [Underrun], r, v);
    SamePosts(r, Post(r, Underrun), v, [Underrun], v);
  }

  lemma ProgressPosts(v: View, count: nat)
    requires v.config.outputRate > 0 && Queued(v) >= 0 && v.generation != ""
    ensures var w := NoteProgress(v, count); var lag := v.stream.played - v.lastReported;
            && Posts(v, w, if count > 0 && (Queued(v) == 0 || (lag >= 128 && 20 * lag >= v.config.outputRate))
                           then [Progress] else [], v)
            && SameCounts(v, w) && w.completed == v.completed
  {
    assert News(v, v) == [] && Kinds([]) == [];
    PostPosts(v, Progress);
  }

  lemma DrainPosts(v: View)
    requires v.config.outputRate > 0 && Queued(v) >= 0 && v.generation != "" && !v.completed
    ensures var w := CheckDrain(v); var drains := v.stream.done && Queued(v) == 0;
            && Posts(v, w, if drains then [Progress, Completed] else [], v) && SameCounts(v, w)
            && (w.completed <==> drains)
  {
    assert News(v, v) == [] && Kinds([]) == [];
    var d := v.(completed := true);
    PostPosts(d, Progress);
    PostPosts(Post(d, Progress), Completed);
    hide Post;
    ToldSame(Post(d, Progress), Post(Post(d, Progress), Completed), [Completed], Post(d, Progress), d);
    PostsTwice(d, Post(d, Progress), Post(Post(d, Progress), Completed), [Progress], [Completed], d);
    ToldSame(d, Post(Post(d, Progress), Completed), [Progress] + [Completed], d, v);
    SamePosts(d, Post(Post(d, Progress), Completed), v, [Progress, Completed], v);
  }

  // A quantum that plays: a gap is told when it opens, progress when the ring is
  // empty or a twentieth of a second and 128 frames have not been told, and the
  // end when the last sample was played.
  lemma QuantumPosts(v: View, frames: nat)
    requires Inv(v) && !Idle(v) && !Filling(v)
    ensures var w, count := Step(v, RenderEvent(frames)), |Audible(v, RenderEvent(frames))|;
            Posts(v, w, QuantumKinds(v, frames, count), w) && (w.completed <==> Drains(v, count))
  {
    HeardExactly(v, frames);
    ThresholdIs(v);
    assert Queued(v) >= 0 && v.config.outputRate > 0;
    var count := Min(frames, Queued(v));
    assert Step(v, RenderEvent(frames)) ==
           CheckDrain(NoteProgress(NoteUnderrun(Render(v, count), count, frames), count));
    hide Inv, Step, Audible, Threshold, Short, Render, NoteUnderrun, NoteProgress, CheckDrain, Posts, SameCounts;
    QuantumChain(v, count, frames);
  }

  lemma QuantumChain(v: View, count: nat, frames: nat)
    requires v.config.outputRate > 0 && count == Min(frames, Queued(v)) && v.generation != "" && !v.completed
    ensures var w := CheckDrain(NoteProgress(NoteUnderrun(Render(v, count), count, frames), count));
            Posts(v, w, QuantumKinds(v, frames, count), w) && (w.completed <==> Drains(v, count))
  {
    var r := Render(v, count);
    var a := NoteUnderrun(r, count, frames);
    var b := NoteProgress(a, count);
    var w := CheckDrain(b);
    RenderIs(v, count);
    UnderrunPosts(r, count, frames);
    ProgressPosts(a, count);
    DrainPosts(b);
    hide Render, NoteUnderrun, NoteProgress, CheckDrain, Posts;
    var x := if OpensGap(v, frames, count) then [Underrun] else [];
    var y := if count > 0 && (Queued(v) == count || (Lag(v, frames, count) >= 128
                              && 20 * Lag(v, frames, count) >= v.config.outputRate)) then [Progress] else [];
    var z := if Drains(v, count) then [Progress, Completed] else [];
    assert Posts(r, a, x, r) && Posts(a, b, y, a) && Posts(b, w, z, b);
    ToldSame(r, a, x, r, w);
    ToldSame(a, b, y, a, w);
    ToldSame(b, w, z, b, w);
    SamePosts(r, a, v, x, w);
    PostsTwice(v, a, b, x, y, w);
    PostsTwice(v, b, w, x + y, z, w);
  }

  // --- messages ---------------------------------------------------------------

  // A player that has forgotten everything but its configuration and its log.
  ghost predicate Blank(w: View, v: View, id: string) {
    w == Initial(v.config).(generation := id, posted := w.posted,
                            stream := Stream(v.stream.epoch + 1, 0, [], 0, 0, false))
  }

  // The generation is given up: the reason is told, then how far it was played.
  ghost predicate Overflows(v: View, w: View, reason: string, told: View) {
    Posts(v, w, FailKinds(v, reason), told) && Blank(w, v, "")
  }

  lemma ClearPosts(v: View, id: string)
    requires Inv(v)
    ensures id != "" && id != v.generation ==> Step(v, ClearEvent(id)) == v
    ensures id == "" || id == v.generation ==>
            var w := Step(v, ClearEvent(id));
            Posts(v, w, if v.generation == "" then [] else [Progress], v) && Blank(w, v, "")
  {
    assert Queued(v) >= 0 && v.config.outputRate > 0;
    PostPosts(v, Progress);
    SamePosts(v, Post(v, Progress), Clear(v, id), if v.generation == "" then [] else [Progress], v);
    hide Inv, Post, Posts;
  }

  lemma GenerationPosts(v: View, id: string)
    requires Inv(v)
    ensures id == "" || id == v.generation ==> Step(v, SetGenerationEvent(id)) == v
    ensures id != "" && id != v.generation ==>
            var w := Step(v, SetGenerationEvent(id));
            Posts(v, w, if v.generation == "" then [] else [Progress], v) && Blank(w, v, id)
  {
    assert Queued(v) >= 0 && v.config.outputRate > 0;
    PostPosts(v, Progress);
    SamePosts(v, Post(v, Progress), SetGeneration(v, id), if v.generation == "" then [] else [Progress], v);
    hide Inv, Post, Posts;
  }

  lemma FailPosts(v: View, reason: string)
    requires v.config.outputRate > 0 && Queued(v) >= 0
    ensures Overflows(v, Fail(v, reason), reason, v)
  {
    var a := Post(v, Overflow(reason));
    var b := Post(a, Progress);
    PostPosts(v, Overflow(reason));
    PostPosts(a, Progress);
    hide Post, Posts;
    if v.generation != "" {
      ToldSame(a, b, [Progress], a, v);
      PostsTwice(v, a, b, [Overflow(reason)], [Progress], v);
    } else {
      ToldSame(a, b, [], a, v);
      PostsTwice(v, a, b, [], [], v);
    }
    SamePosts(v, b, Fail(v, reason), FailKinds(v, reason), v);
  }

  // A format is taken once, within the range the server synthesizes in.
  lemma FormatPosts(v: View, id: string, rate: int)
    requires Inv(v)
    ensures var w := Step(v, FormatEvent(id, rate));
            if id != v.generation || v.stream.done then w == v
            else if rate < 1000 || rate > 192000 || v.stream.rate !in {0, rate}
            then Overflows(v, w, "invalid_format", v)
            else Posts(v, w, if v.generation == "" then [] else [Credit], w) && w.stream == v.stream.(rate := rate)
  {
    hide Post, Posts, DescriptorsOk;
    assert Queued(v) >= 0 && v.config.outputRate > 0;
    hide Inv, Post, Posts, Fail, Overflows;
    if id != v.generation || v.stream.done {
    } else if rate < 1000 || rate > 192000 || v.stream.rate !in {0, rate} {
      FailPosts(v, "invalid_format");
    } else {
      var kinds, u := if v.generation == "" then [] else [Credit], WithRate(v, rate);
      PostPosts(u, Credit);
      ToldSame(u, Post(u, Credit), kinds, u, Post(u, Credit));
      SamePosts(u, Post(u, Credit), v, kinds, Post(u, Credit));
    }
  }

  // The end is taken when nothing is missing.
  lemma DonePosts(v: View, id: string, n: Option<int>)
    requires Inv(v)
    ensures var w := Step(v, DoneEvent(id, n));
            if id == "" || id != v.generation || v.stream.done then w == v
            else if n.Some? && n.value != |v.stream.source| then Overflows(v, w, "incomplete_source_stream", v)
            else
              && w.stream == v.stream.(done := true, emitted := w.stream.emitted)
              && Posts(v, w, if Queued(w) == 0 then [Progress, Completed] else [], w)
              && (w.completed <==> Queued(w) == 0)
  {
    assert Queued(v) >= 0 && v.config.outputRate > 0 && (v.stream.source != [] ==> v.stream.rate > 0);
    assert v.completed ==> v.stream.done;
    if id == "" || id != v.generation || v.stream.done {
    } else if n.Some? && n.value != |v.stream.source| {
      hide Inv, Posts, Fail, Overflows, CheckDrain;
      FailPosts(v, "incomplete_source_stream");
    } else {
      EndedOk(v);
      assert Queued(Ended(v)) >= 0;
      hide Inv, Posts, Fail, Overflows, CheckDrain;
      EndPosts(v);
    }
  }

  lemma EndPosts(v: View)
    requires v.config.outputRate > 0 && (v.stream.source != [] ==> v.stream.rate > 0) && !v.completed
    requires v.generation != "" && Queued(Ended(v)) >= 0
    ensures var w := CheckDrain(Ended(v));
            && w.stream == v.stream.(done := true, emitted := w.stream.emitted)
            && Posts(v, w, if Queued(w) == 0 then [Progress, Completed] else [], w)
            && (w.completed <==> Queued(w) == 0)
  {
    var u := Ended(v);
    DrainPosts(u);
    hide Posts, CheckDrain;
    var kinds := if Queued(u) == 0 then [Progress, Completed] else [];
    ToldSame(u, CheckDrain(u), kinds, u, CheckDrain(u));
    SamePosts(u, CheckDrain(u), v, kinds, CheckDrain(u));
  }

  // What is wrong with a packet, if anything: its form, its place, or its size.
  predicate WrongForm(v: View, samples: seq<real>, rate: int, m: Metadata) {
    || rate < 1000 || rate > 192000 || v.stream.rate !in {0, rate}
    || (m.sourceFrames.Some? && m.sourceFrames.value != |samples|)
    || (m.sourceStart.Some? && m.sourceStart.value != |v.stream.source|)
  }

  predicate WrongPlace(v: View, m: Metadata) {
    m.speechSequence.Some? &&
    (|| m.audioSequence.None? || m.speechSequence.value < 0 || m.audioSequence.value < 0
     || m.speechSequence.value > MAX_SAFE_INTEGER || m.audioSequence.value > MAX_SAFE_INTEGER
     || (m.speechSequence.value == v.lastChunk && m.audioSequence.value != v.lastPacket + 1)
     || (m.speechSequence.value != v.lastChunk
         && (m.speechSequence.value != v.lastChunk + 1 || m.audioSequence.value != 0)))
  }

  // The output of the whole source, the tail included, has to fit behind what was played.
  predicate TooMuch(v: View, total: nat, rate: nat)
    requires rate > 0
  {
    || total > MAX_SAFE_INTEGER / Max(v.config.outputRate, rate)
    || CeilDiv(total * v.config.outputRate, rate) > v.stream.played + v.config.capacity
    || |v.live| == 4096
  }

  lemma TargetCeil(total: nat, rate: nat, o: nat)
    requires rate > 0
    ensures Target(total, rate, o) == CeilDiv(total * o, rate)
  {
  }

  // The packet is taken: its samples follow those received, and credit is told.
  ghost predicate Takes(v: View, w: View, samples: seq<real>, rate: int, m: Metadata) {
    && Posts(v, w, [Credit], w)
    && w.stream.source == v.stream.source + samples && w.stream.rate == rate
    && (m.speechSequence.Some? && m.audioSequence.Some? ==>
          w.lastChunk == m.speechSequence.value && w.lastPacket == m.audioSequence.value)
    && (m.speechSequence.None? ==> w.lastChunk == v.lastChunk && w.lastPacket == v.lastPacket)
  }

  // A packet of another generation, or behind the end, is ignored; any other is
  // taken, or ends the generation with what is wrong with it.
  lemma AudioPosts(v: View, id: string, samples: seq<real>, rate: int, m: Metadata)
    requires Inv(v)
    ensures var w := Step(v, AudioEvent(id, samples, rate, m));
            if id == "" || id != v.generation || v.stream.done || samples == [] then w == v
            else if WrongForm(v, samples, rate, m) then Overflows(v, w, "invalid_audio", v)
            else if WrongPlace(v, m) then Overflows(v, w, "invalid_packet_order", v)
            else if TooMuch(v, |v.stream.source| + |samples|, rate) then Overflows(v, w, "capacity", WithRate(v, rate))
            else Takes(v, w, samples, rate, m)
  {
    assert Queued(v) >= 0 && v.config.outputRate > 0;
    hide Posts, Overflows, Takes, TooMuch;
    EnqueueIs(v, id, samples, rate, m);
    if id == "" || id != v.generation || v.stream.done || samples == [] {
    } else if WrongForm(v, samples, rate, m) {
      FailPosts(v, "invalid_audio");
    } else if WrongPlace(v, m) {
      FailPosts(v, "invalid_packet_order");
    } else {
      FormOk(v, samples, rate, m);
      StampOk(v, rate, m);
      hide Inv, WrongForm, WrongPlace, Fail, Admit, Stamp, Step, PacketInOrder;
      if TooMuch(v, |v.stream.source| + |samples|, rate) { StampedFails(v, samples, rate, m); }
      else { StampedTakes(v, samples, rate, m); }
    }
  }

  lemma FormOk(v: View, samples: seq<real>, rate: int, m: Metadata)
    requires !WrongForm(v, samples, rate, m) && !WrongPlace(v, m)
    ensures rate > 0 && v.stream.rate in {0, rate} && PacketInOrder(v, m)
  {
  }

  lemma EnqueueIs(v: View, id: string, samples: seq<real>, rate: int, m: Metadata)
    requires Inv(v)
    ensures v.config.outputRate > 0
    ensures var w := Step(v, AudioEvent(id, samples, rate, m));
            if id == "" || id != v.generation || v.stream.done || samples == [] then w == v
            else if WrongForm(v, samples, rate, m) then w == Fail(v, "invalid_audio")
            else if WrongPlace(v, m) then w == Fail(v, "invalid_packet_order")
            else PacketInOrder(v, m) && rate > 0 && w == Admit(Stamp(v, rate, m), samples, rate)
  {
    hide Inv, Fail, Admit, Stamp;
    assert v.config.outputRate > 0 by { InvRate(v); }
  }

  lemma InvRate(v: View)
    requires Inv(v)
    ensures v.config.outputRate > 0
  {
  }

  lemma StampIs(v: View, rate: nat, m: Metadata)
    requires PacketInOrder(v, m)
    ensures var u := Stamp(v, rate, m);
            && u == WithRate(v, rate).(lastChunk := u.lastChunk, lastPacket := u.lastPacket)
            && (m.speechSequence.Some? ==>
                  u.lastChunk == m.speechSequence.value && u.lastPacket == m.audioSequence.value)
            && (m.speechSequence.None? ==> u.lastChunk == v.lastChunk && u.lastPacket == v.lastPacket)
  {
  }

  lemma AdmitsExact(v: View, u: View, total: nat, rate: nat)
    requires rate > 0 && |v.live| <= DESCRIPTORS && u.live == v.live && u.config == v.config
    requires u.stream.played == v.stream.played
    ensures Admits(u, total, rate) <==> !TooMuch(v, total, rate)
  {
    TargetCeil(total, rate, v.config.outputRate);
    hide Target, CeilDiv;
  }

  lemma StampedTakes(v: View, samples: seq<real>, rate: nat, m: Metadata)
    requires Inv(v) && rate > 0 && v.stream.rate in {0, rate} && PacketInOrder(v, m) && Inv(Stamp(v, rate, m))
    requires samples != [] && !v.stream.done && v.generation != ""
    requires !TooMuch(v, |v.stream.source| + |samples|, rate)
    ensures Takes(v, Admit(Stamp(v, rate, m), samples, rate), samples, rate, m)
  {
    var u, total := Stamp(v, rate, m), |v.stream.source| + |samples|;
    StampIs(v, rate, m);
    hide Stamp;
    assert |v.live| <= DESCRIPTORS && v.config.outputRate > 0;
    AdmitsExact(v, u, total, rate);
    AcceptOk(u, samples, rate);
    var x := Accept(u, samples, rate);
    assert Queued(x) >= 0;
    hide Inv, Admits, TooMuch, Post, Posts, PacketInOrder;
    PostPosts(x, Credit);
    ToldSame(x, Post(x, Credit), [Credit], x, Post(x, Credit));
    SamePosts(x, Post(x, Credit), v, [Credit], Post(x, Credit));
  }

  lemma StampedFails(v: View, samples: seq<real>, rate: nat, m: Metadata)
    requires Inv(v) && rate > 0 && PacketInOrder(v, m) && TooMuch(v, |v.stream.source| + |samples|, rate)
    ensures Overflows(v, Admit(Stamp(v, rate, m), samples, rate), "capacity", WithRate(v, rate))
  {
    var u := Stamp(v, rate, m);
    StampIs(v, rate, m);
    assert |v.live| <= DESCRIPTORS && v.config.outputRate > 0 && Queued(u) >= 0;
    hide Inv, Stamp, PacketInOrder, Fail, Overflows;
    AdmitsExact(v, u, |v.stream.source| + |samples|, rate);
    FailPosts(u, "capacity");
    StampFails(v, u, Fail(u, "capacity"), rate);
  }

  lemma StampFails(v: View, u: View, w: View, rate: nat)
    requires Overflows(u, w, "capacity", u)
             && u == WithRate(v, rate).(lastChunk := u.lastChunk, lastPacket := u.lastPacket)
    ensures Overflows(v, w, "capacity", WithRate(v, rate))
  {
    ToldSame(u, w, FailKinds(u, "capacity"), u, WithRate(v, rate));
    SamePosts(u, w, v, FailKinds(u, "capacity"), WithRate(v, rate));
    hide Posts;
  }
}
