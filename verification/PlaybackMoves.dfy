// What every operation on a session's books does, and what it answers: which texts
// and chunks are taken, when a window opens, and where the positions go.
module PlaybackMoves {
  import opened Arithmetic
  import opened Options
  import F = Flow
  import C = ConversationModel
  import X = ConversationText
  import opened Playback

  // The operation is about the generation that runs.
  predicate Current(b: Books, id: string) { id != "" && id == b.gen && b.live }

  // A text goes to the answer of the running generation, as generated or as written.
  lemma TextMoves(c: C.Config, b: Books, id: string, text: C.Text, sent: bool)
    requires b.items != []
    ensures var (d, reply) := AppendText(c, b, id, text, sent);
            && d == b.(items := d.items)
            && (reply == Done <==> Current(b, id) && X.TakesText(c, b.items, id, text, sent))
            && (reply == Inactive <==> !Current(b, id))
            && (reply != Done ==> d == b)
            && (reply == Done ==> d.items == C.Append(c, b.items, id, text, sent).0)
  {
    X.AppendExact(c, b.items, id, text, sent);
    hide C.Append, X.TakesText;
  }

  // The model is done with the answer of the running generation.
  lemma TextDoneMoves(b: Books, id: string)
    ensures var d := TextDone(b, id);
            && d == b.(items := d.items) && |d.items| == |b.items|
            && (!Current(b, id) || !C.PendingAt(b.items, id) ==> d == b)
            && (Current(b, id) && C.PendingAt(b.items, id) ==>
                  var k := C.FindAssistant(b.items, id, 0);
                  d.items[k].llmDone && (d.items[k].audioDone <==> b.items[k].audioDone)
                    && d.items == b.items[k := d.items[k]])
  {
    hide C.AllPlayed;
  }

  // A chunk is registered where the generated audio ends, in the format it began in.
  predicate Registers(c: C.Config, b: Books, id: string, sequence: int, text: C.Text, rate: int, channels: int,
      frames: int)
  {
    && Current(b, id) && b.timeline.Some? && rate > 0 && channels > 0 && frames > 0
    && var t := b.timeline.value;
       && (t.generated > 0 ==> t.rate == rate && t.channels == channels)
       && X.TakesChunk(c, b.items, id, sequence, text, t.generated, t.generated + frames)
  }

  lemma RegisterMoves(c: C.Config, b: Books, id: string, sequence: int, text: C.Text, rate: int, channels: int,
      frames: int)
    requires b.items != []
    ensures var (d, reply) := RegisterSpeech(c, b, id, sequence, text, rate, channels, frames);
            && (reply == Done <==> Registers(c, b, id, sequence, text, rate, channels, frames))
            && (reply == Inactive <==> !Current(b, id))
            && (reply != Done ==> d == b)
            && (reply == Done ==>
                  var t := b.timeline.value;
                  && d == b.(items := d.items,
                             timeline := Some(t.(rate := rate, channels := channels,
                                                 generated := t.generated + frames)))
                  && d.items == C.AddChunk(c, b.items, id, sequence, text, t.generated, t.generated + frames).0)
  {
    hide C.WithChunk;
    if b.timeline.Some? {
      var g := b.timeline.value.generated;
      X.AddChunkExact(c, b.items, id, sequence, text, g, g + frames);
    }
    hide C.AddChunk, X.TakesChunk;
  }

  // A window of two seconds opens once, closed until the first snapshot if credit was
  // negotiated, which it can be while no generation runs.
  lemma FlowMoves(b: Books, id: string, rate: int)
    ensures var (d, reply) := OpenFlow(b, id, rate);
            && d == b.(flow := d.flow)
            && (!Current(b, id) ==> reply == Inactive && d == b)
            && (Current(b, id) && b.flow.Some? ==> reply == Done && d == b)
            && (Current(b, id) && b.flow.None? ==>
                  if rate < 1000 || rate > 192000 then reply == BadRate && d == b
                  else
                    && reply == Done && d.flow.Some?
                    && d.flow.value == F.FlowState(rate, if b.creditRequired then 0 else 2 * rate, 0, 0, 0,
                                                   b.creditRequired))
    ensures RequireCredit(b) == if b.gen == "" then (b.(creditRequired := true), Done) else (b, TooLate)
  {
  }

  // A writer is granted at most what it asks and at most what is open.
  lemma ReserveMoves(b: Books, requested: int)
    ensures var d := Reserve(b, requested);
            if b.flow.None? then d == b
            else
              var f := b.flow.value;
              var open := f.capacity + f.played - f.reserved;
              var n := if requested <= 0 || open <= 0 then 0 else Min(requested, open);
              d == b.(flow := Some(f.(reserved := f.reserved + n)))
  {
  }

  // Where positions go: what was written counts as sent, and what was played before
  // it was recorded counts now.
  lemma SentMoves(b: Books, id: string, frames: int)
    requires b.timeline.Some? ==> TimelineOk(b.timeline.value)
    ensures var d := RecordSent(b, id, frames);
            if !Current(b, id) || b.timeline.None? then d == b
            else
              var t := b.timeline.value;
              var sent := t.sent + if frames > 0 then frames else 0;
              var played := if b.flow.None? then t.played else Max(t.played, Min(b.flow.value.played, sent));
              && d.timeline.Some? && d == b.(items := C.Progress(b.items, b.gen, sent, played), timeline := d.timeline)
              && d.timeline.value == t.(sent := sent, played := played,
                                        pausePlayed := if t.paused && played > t.played then played else t.pausePlayed)
  {
    hide C.Progress;
  }

  // A position never goes back and never beyond what was sent; without negotiated
  // credit it acknowledges what was reserved.
  lemma PositionMoves(b: Books, frames: int)
    requires b.timeline.Some? ==> TimelineOk(b.timeline.value)
    ensures var (d, reply) := RecordSource(b, frames);
            if frames < 0 then reply == BadPosition && d == b
            else if b.timeline.None? then reply == Done && d == b
            else
              var t := b.timeline.value;
              var played := Max(t.played, Min(frames, t.sent));
              && reply == Done && d.timeline.Some?
              && d == b.(items := C.Progress(b.items, b.gen, t.sent, played), timeline := d.timeline, flow := d.flow)
              && d.timeline.value == t.(played := played,
                                        pausePlayed := if t.paused && played > t.played then played else t.pausePlayed)
              && (b.flow.None? ==> d.flow.None?)
              && (b.flow.Some? ==>
                    var f := b.flow.value;
                    var acked := if f.explicit then f.played else Max(f.played, Min(frames, f.reserved));
                    d.flow == Some(f.(played := acked,
                                      received := Max(f.received, if f.explicit then f.received else acked))))
    requires b.flow.Some? ==> F.WindowOk(b.flow.value)
  {
    hide C.Progress;
  }

  // A snapshot is refused unless it tells a capacity of a tenth of a second to thirty
  // seconds and counts that add up; one that is older than the last is ignored.
  lemma CreditMoves(b: Books, id: string, credit: F.Credit)
    requires b.timeline.Some? ==> TimelineOk(b.timeline.value)
    requires b.flow.Some? ==> F.WindowOk(b.flow.value)
    ensures var (d, reply) := UpdateCredit(b, id, credit);
            if !Current(b, id) || b.flow.None? then reply == Done && d == b
            else
              var f := b.flow.value;
              if credit.capacity < f.rate / 10 || credit.capacity > f.rate * 30 || credit.received < 0
                 || credit.received > f.reserved || credit.played < 0 || credit.played > credit.received
                 || credit.buffered != credit.received - credit.played
              then reply == BadCredit && d == b
              else
                var stale := credit.received < f.received || credit.played < f.played;
                var g := if stale then f
                         else f.(explicit := true, capacity := credit.capacity, received := credit.received,
                                 played := credit.played);
                (d, reply) == RecordSource(b.(flow := Some(g)), g.played)
  {
    hide C.Progress, RecordSource;
  }
}
