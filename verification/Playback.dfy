// The server's account of one generation's audio: the playback timeline, the
// pending answer it is mirrored into, and the credit window in front of it.
module Playback {
  import opened Arithmetic
  import opened Options
  import F = Flow
  import opened ConversationModel
  import opened ConversationHistory
  import opened ConversationBounds

  datatype Timeline = Timeline(generation: string, rate: int, channels: int, generated: int, sent: int, played: int,
                               paused: bool, pausePlayed: int)

  function NewTimeline(generation: string): Timeline { Timeline(generation, 0, 0, 0, 0, 0, false, 0) }

  function WithFormat(t: Timeline, rate: int, channels: int): Timeline {
    t.(rate := if rate > 0 then rate else t.rate, channels := if channels > 0 then channels else t.channels)
  }

  function PlayedTo(t: Timeline, frames: int): Timeline {
    var p := Min(frames, t.sent);
    if frames < 0 || p <= t.played then t else t.(played := p, pausePlayed := if t.paused then p else t.pausePlayed)
  }

  function PausedTo(t: Timeline, paused: bool): Timeline {
    t.(paused := paused, pausePlayed := if paused then t.played else t.pausePlayed)
  }

  class PlaybackTimeline {
    const generation: string
    var rate: int
    var channels: int
    var generated: int
    var sent: int
    var played: int
    var paused: bool
    var pausePlayed: int

    ghost function View(): Timeline
      reads this
    {
      Timeline(generation, rate, channels, generated, sent, played, paused, pausePlayed)
    }

    constructor (generation: string)
      ensures View() == NewTimeline(generation)
    {
      this.generation := generation;
      rate, channels, generated, sent, played, paused, pausePlayed := 0, 0, 0, 0, 0, false, 0;
    }

    method SetFormat(rate: int, channels: int)
      modifies this
      ensures View() == WithFormat(old(View()), rate, channels)
    {
      if rate > 0 { this.rate := rate; }
      if channels > 0 { this.channels := channels; }
    }

    method AddGenerated(frames: int)
      modifies this
      ensures View() == old(View()).(generated := old(generated) + Max(frames, 0))
    {
      if frames <= 0 { return; }
      generated := generated + frames;
    }

    method AddSent(frames: int)
      modifies this
      ensures View() == old(View()).(sent := old(sent) + Max(frames, 0))
    {
      if frames <= 0 { return; }
      sent := sent + frames;
    }

    // Never backwards, never beyond what was sent.
    method SetPlayed(frames: int)
      modifies this
      ensures View() == PlayedTo(old(View()), frames)
    {
      if frames < 0 { return; }
      var p := frames;
      if p > sent { p := sent; }
      if p <= played { return; }
      played := p;
      if paused { pausePlayed := p; }
    }

    method SetPaused(paused: bool)
      modifies this
      ensures View() == PausedTo(old(View()), paused)
    {
      this.paused := paused;
      if paused { pausePlayed := played; }
    }
  }

  // --- the session's books ---------------------------------------------------

  // gen is the current generation ("" for none); live says its context still runs.
  datatype Books = Books(items: seq<Item>, gen: string, live: bool, timeline: Option<Timeline>,
                         flow: Option<F.FlowState>, creditRequired: bool)

  datatype Reply = Done | Inactive | NoTimeline | BadFormat | Refused(outcome: Outcome) | BadRate | BadCredit
    | BadPosition | TooLate

  predicate Active(b: Books, id: string) { id != "" && id == b.gen && b.live }

  // The pending answer follows the timeline.
  function Sync(b: Books): Books {
    if b.timeline.None? then b
    else b.(items := Progress(b.items, b.gen, b.timeline.value.sent, b.timeline.value.played))
  }

  function FinalizeCurrent(b: Books): Books {
    var c := Sync(b);
    c.(items := Finalize(c.items, c.gen))
  }

  function AppendText(c: Config, b: Books, id: string, text: Text, sent: bool): (Books, Reply)
    requires b.items != []
  {
    if !Active(b, id) then (b, Inactive)
    else
      var (items, outcome) := Append(c, b.items, id, text, sent);
      (b.(items := items), if outcome == Accepted then Done else Refused(outcome))
  }

  function TextDone(b: Books, id: string): Books {
    if !Active(b, id) then b else b.(items := ConversationModel.Done(b.items, id, false))
  }

  function AudioDone(b: Books): Books {
    Sync(b.(items := ConversationModel.Done(b.items, b.gen, true)))
  }

  // A synthesized chunk is registered where the generated audio ends.
  function RegisterSpeech(c: Config, b: Books, id: string, sequence: int, text: Text, rate: int, channels: int,
      frames: int): (Books, Reply)
    requires b.items != []
  {
    if !Active(b, id) then (b, Inactive)
    else if b.timeline.None? then (b, NoTimeline)
    else
      var t := b.timeline.value;
      if rate <= 0 || channels <= 0 || frames <= 0
         || (t.generated > 0 && (t.rate != rate || t.channels != channels)) then (b, BadFormat)
      else
        var (items, outcome) := AddChunk(c, b.items, id, sequence, text, t.generated, t.generated + frames);
        if outcome != Accepted then (b, Refused(outcome))
        else (b.(items := items, timeline := Some(WithFormat(t, rate, channels).(generated := t.generated + frames))),
              Done)
  }

  // The window is opened once per generation.
  function OpenFlow(b: Books, id: string, rate: int): (Books, Reply) {
    if !Active(b, id) then (b, Inactive)
    else if b.flow.Some? then (b, Done)
    else if !F.SupportedRate(rate) then (b, BadRate)
    else
      var f := F.Fresh(rate);
      (b.(flow := Some(if b.creditRequired then F.CreditRequired(f) else f)), Done)
  }

  // Credit is negotiated while no generation runs.
  function RequireCredit(b: Books): (Books, Reply) {
    if b.gen != "" then (b, TooLate) else (b.(creditRequired := true), Done)
  }

  // A writer takes what the window holds of what it asks for.
  function Reserve(b: Books, requested: int): Books {
    if b.flow.None? then b else b.(flow := Some(F.Apply(b.flow.value, F.ReserveOp(requested))))
  }

  // A written packet; an acknowledgement that overtook it is applied now.
  function RecordSent(b: Books, id: string, frames: int): Books {
    if !Active(b, id) || b.timeline.None? then b
    else
      var t := b.timeline.value;
      var u := t.(sent := t.sent + Max(frames, 0));
      Sync(b.(timeline := Some(if b.flow.Some? then PlayedTo(u, Min(b.flow.value.played, u.sent)) else u)))
  }

  function RecordSource(b: Books, frames: int): (Books, Reply) {
    if frames < 0 then (b, BadPosition)
    else if b.timeline.None? then (b, Done)
    else
      var t := b.timeline.value;
      (Sync(b.(flow := if b.flow.Some? then Some(F.Acknowledged(b.flow.value, frames)) else None,
               timeline := Some(PlayedTo(t, Min(frames, t.sent))))), Done)
  }

  function RecordPosition(b: Books, id: string, frames: int): (Books, Reply) {
    if !Active(b, id) then (b, Done) else RecordSource(b, frames)
  }

  function UpdateCredit(b: Books, id: string, credit: F.Credit): (Books, Reply) {
    if !Active(b, id) || b.flow.None? then (b, Done)
    else if !F.Acceptable(b.flow.value, credit) then (b, BadCredit)
    else
      var f := F.Updated(b.flow.value, credit);
      RecordSource(b.(flow := Some(f)), f.played)
  }

  function PauseTimeline(b: Books, paused: bool): Books {
    if b.timeline.None? then b else b.(timeline := Some(PausedTo(b.timeline.value, paused)))
  }

  // A generation is settled before another begins or when it is cancelled.
  function BeginGeneration(c: Config, b: Books, item: string, turn: string, gen: string, textOnly: bool): Books
    requires b.items != []
  {
    var d := FinalizeCurrent(b);
    Books(BeginAssistant(c, d.items, item, turn, gen, textOnly), gen, true,
          if textOnly then None else Some(NewTimeline(gen)), None, d.creditRequired)
  }

  function EndGeneration(b: Books): Books {
    PauseTimeline(FinalizeCurrent(b), false).(gen := "", live := false)
  }

  // --- what every operation keeps --------------------------------------------

  ghost predicate TimelineOk(t: Timeline) { 0 <= t.played <= t.sent <= t.generated }

  // The newest item is the current generation's answer, and only it may be pending.
  ghost predicate Owned(b: Books) {
    && b.items != []
    && (b.gen != "" ==> IsAssistant(b.items[|b.items| - 1], b.gen))
    && (b.gen == "" ==> b.items[|b.items| - 1].status != Pending)
  }

  // While the answer is pending its counts are the timeline's.
  ghost predicate Mirrored(b: Books) {
    b.items != [] && b.items[|b.items| - 1].status == Pending ==>
      var p := b.items[|b.items| - 1];
      if b.timeline.None? then p.textOnly
      else
        && !p.textOnly && p.generated == b.timeline.value.generated && p.sent == b.timeline.value.sent
        && p.played == b.timeline.value.played
  }

  // No acknowledgement is lost to the race between a write and its record.
  ghost predicate NoLostAck(b: Books) {
    b.gen != "" && b.flow.Some? && b.timeline.Some? ==>
      b.timeline.value.played >= Min(b.flow.value.played, b.timeline.value.sent)
  }

  ghost predicate Core(c: Config, b: Books) {
    && ValidConfig(c) && StoreOk(c, b.items) && Owned(b) && Mirrored(b)
    && (b.timeline.Some? ==> TimelineOk(b.timeline.value))
    && (b.flow.Some? ==> F.WindowOk(b.flow.value))
    && (b.gen == "" ==> !b.live)
  }

  ghost predicate BooksOk(c: Config, b: Books) { Core(c, b) && NoLostAck(b) }

  // Positions only advance within a generation.
  ghost predicate Onward(b: Books, d: Books) {
    d.gen == b.gen && b.timeline.Some? ==>
      d.timeline.Some? && d.timeline.value.played >= b.timeline.value.played
        && d.timeline.value.sent >= b.timeline.value.sent
  }

  lemma PendingCurrent(c: Config, b: Books, gen: string)
    requires StoreOk(c, b.items) && PendingAt(b.items, gen)
    ensures FindAssistant(b.items, gen, 0) == |b.items| - 1 && |b.items| > 1
  {
    PendingIsLast(c, b.items, gen);
  }

  // A pending item is the one its own generation finds.
  lemma LastPending(c: Config, items: seq<Item>)
    requires StoreOk(c, items) && items[|items| - 1].status == Pending
    ensures PendingAt(items, items[|items| - 1].generation)
    ensures FindAssistant(items, items[|items| - 1].generation, 0) == |items| - 1 && |items| > 1
  {
    var n := |items| - 1;
    assert ItemOk(items[n]);
    var k := FindAssistant(items, items[n].generation, 0);
  }

  lemma ProgressedCounts(p: Item, sent: int, played: int)
    requires 0 <= p.sent <= p.generated && p.sent <= sent <= p.generated && p.played <= played <= sent
    ensures var q := Progressed(p, sent, played);
            q.generated == p.generated && q.sent == sent && q.played == played && q.generation == p.generation
              && q.textOnly == p.textOnly && q.role == p.role
  {}

  // Following the timeline brings the pending answer level with it.
  lemma SyncOk(c: Config, b: Books)
    requires ValidConfig(c) && StoreOk(c, b.items) && Owned(b)
    requires b.timeline.Some? ==>
      && TimelineOk(b.timeline.value)
      && (b.items[|b.items| - 1].status == Pending ==>
            var p := b.items[|b.items| - 1];
            !p.textOnly && p.generated == b.timeline.value.generated && p.sent <= b.timeline.value.sent
              && p.played <= b.timeline.value.played)
    requires b.timeline.None? ==> Mirrored(b)
    ensures StoreOk(c, Sync(b).items) && Owned(Sync(b)) && Mirrored(Sync(b))
    ensures Sync(b) == b.(items := Sync(b).items) && |Sync(b).items| == |b.items|
  {
    if b.timeline.Some? {
      var t := b.timeline.value;
      ProgressBounded(c, b.items, b.gen, t.sent, t.played);
      var n := |b.items| - 1;
      if b.items[n].status == Pending {
        LastPending(c, b.items);
        assert ItemOk(b.items[n]);
        ProgressedCounts(b.items[n], t.sent, t.played);
      } else {
        if PendingAt(b.items, b.gen) { PendingCurrent(c, b, b.gen); assert false; }
      }
    }
  }

  // --- operations ------------------------------------------------------------

  lemma FinalizeLast(c: Config, items: seq<Item>, gen: string)
    requires ValidConfig(c) && StoreOk(c, items)
    ensures var done := Finalize(items, gen);
            && StoreOk(c, done) && |done| == |items| && SameIdentity(items[|items| - 1], done[|items| - 1])
            && (items[|items| - 1].status != Pending ==> done == items)
            && (items[|items| - 1].status == Pending && items[|items| - 1].generation == gen ==> Settled(done))
  {
    FinalizeBounded(c, items, gen);
    if PendingAt(items, gen) {
      PendingIsLast(c, items, gen);
      FinalizedOk(items[|items| - 1]);
    } else if items[|items| - 1].status == Pending {
      LastPending(c, items);
    }
  }

  // Finalizing leaves nothing pending.
  lemma FinalizeOk(c: Config, b: Books)
    requires BooksOk(c, b)
    ensures BooksOk(c, FinalizeCurrent(b)) && Settled(FinalizeCurrent(b).items)
    ensures FinalizeCurrent(b) == b.(items := FinalizeCurrent(b).items)
    ensures |FinalizeCurrent(b).items| == |b.items|
  {
    hide StoreOk, Finalize, Progress, ValidConfig, F.WindowOk;
    SyncOk(c, b);
    FinalizeLast(c, Sync(b).items, b.gen);
  }

  // Appended text and chunks touch the newest item only, which survives eviction.
  lemma AppendLast(c: Config, items: seq<Item>, gen: string, text: Text, sent: bool)
    requires ValidConfig(c) && StoreOk(c, items)
    ensures var r := Append(c, items, gen, text, sent);
            && (r.1 != Accepted ==> r.0 == items)
            && (r.1 == Accepted ==>
                  && PendingAt(items, gen) && |items| > 1 && items[|items| - 1].generation == gen
                  && r.0[|r.0| - 1] == WithText(c, items[|items| - 1], text, sent).0)
  {
    if Append(c, items, gen, text, sent).1 == Accepted {
      PendingIsLast(c, items, gen);
      var p := items[|items| - 1];
      WithTextOk(c, p, text, sent);
      TextFits(c, p, text, sent);
      var q := WithText(c, p, text, sent).0;
      hide ItemOk, ItemFits, FromZero, WithText;
      UpdateShape(c, items, q);
      TrimBounded(c, items[|items| - 1 := q], q.turn);
    }
  }

  lemma TextFits(c: Config, p: Item, text: Text, sent: bool)
    requires ItemFits(c, p) && FromZero(p)
    ensures var q := WithText(c, p, text, sent).0;
            ItemFits(c, q) && FromZero(q) && q.role == p.role && q.turn == p.turn && q.generation == p.generation
  {}

  lemma AppendTextOk(c: Config, b: Books, id: string, text: Text, sent: bool)
    requires BooksOk(c, b)
    ensures BooksOk(c, AppendText(c, b, id, text, sent).0) && Onward(b, AppendText(c, b, id, text, sent).0)
  {
    hide StoreOk, Append, ValidConfig, F.WindowOk, WithText, PendingAt, TimelineOk;
    AppendBounded(c, b.items, id, text, sent);
    AppendLast(c, b.items, id, text, sent);
    TextKeeps(c, b.items[|b.items| - 1], text, sent);
  }

  lemma TextKeeps(c: Config, p: Item, text: Text, sent: bool)
    ensures var q := WithText(c, p, text, sent).0;
            && q.role == p.role && q.generation == p.generation && q.textOnly == p.textOnly && q.status == p.status
            && q.generated == p.generated && q.sent == p.sent && q.played == p.played
  {}

  lemma ChunkKeeps(c: Config, p: Item, sequence: int, text: Text, start: int, end: int)
    ensures var (q, outcome) := WithChunk(c, p, sequence, text, start, end);
            && q.role == p.role && q.generation == p.generation && q.textOnly == p.textOnly && q.status == p.status
            && q.sent == p.sent && q.played == p.played
            && (outcome == Accepted ==> q.generated == end)
  {}

  lemma AddChunkLast(c: Config, items: seq<Item>, gen: string, sequence: int, text: Text, start: int, end: int)
    requires ValidConfig(c) && StoreOk(c, items)
    requires PendingAt(items, gen) ==> start == items[FindAssistant(items, gen, 0)].generated
    ensures var r := AddChunk(c, items, gen, sequence, text, start, end);
            && (r.1 != Accepted ==> r.0 == items)
            && (r.1 == Accepted ==>
                  && items[|items| - 1].status == Pending && items[|items| - 1].generation == gen
                  && r.0[|r.0| - 1] == WithChunk(c, items[|items| - 1], sequence, text, start, end).0
                  && WithChunk(c, items[|items| - 1], sequence, text, start, end).1 == Accepted)
  {
    if AddChunk(c, items, gen, sequence, text, start, end).1 == Accepted {
      PendingIsLast(c, items, gen);
      var p := items[|items| - 1];
      WithChunkOk(c, p, sequence, text, start, end);
      var q := WithChunk(c, p, sequence, text, start, end).0;
      ChunkFits(c, p, sequence, text, start, end);
      hide ItemOk, ItemFits, FromZero, WithChunk;
      UpdateShape(c, items, q);
      TrimBounded(c, items[|items| - 1 := q], q.turn);
    }
  }

  lemma ChunkFits(c: Config, p: Item, sequence: int, text: Text, start: int, end: int)
    requires ItemFits(c, p) && FromZero(p) && start == p.generated && ItemOk(p)
    ensures var q := WithChunk(c, p, sequence, text, start, end).0;
            ItemFits(c, q) && FromZero(q) && q.role == p.role && q.turn == p.turn && q.generation == p.generation
  {
    assert p.chunks == [] ==> p.generated == 0;
    hide ItemOk;
    assert WithChunk(c, p, sequence, text, start, end).0.chunks[..|p.chunks|] == p.chunks;
  }

  // Registration starts at the generated count on both sides, so ranges tile.
  lemma RegisterStart(c: Config, b: Books)
    requires BooksOk(c, b) && b.timeline.Some?
    ensures PendingAt(b.items, b.gen) ==>
            b.items[FindAssistant(b.items, b.gen, 0)].generated == b.timeline.value.generated
  {
    if PendingAt(b.items, b.gen) { PendingIsLast(c, b.items, b.gen); }
  }

  lemma RegisterSpeechOk(c: Config, b: Books, id: string, sequence: int, text: Text, rate: int, channels: int,
      frames: int)
    requires BooksOk(c, b)
    ensures var d := RegisterSpeech(c, b, id, sequence, text, rate, channels, frames).0; BooksOk(c, d) && Onward(b, d)
  {
    hide StoreOk, AddChunk, ValidConfig, F.WindowOk, PendingAt, WithChunk;
    if b.timeline.Some? && id == b.gen && frames > 0 {
      RegisterStart(c, b);
      var t := b.timeline.value;
      AddChunkBounded(c, b.items, id, sequence, text, t.generated, t.generated + frames);
      AddChunkLast(c, b.items, id, sequence, text, t.generated, t.generated + frames);
      ChunkKeeps(c, b.items[|b.items| - 1], sequence, text, t.generated, t.generated + frames);
    }
  }

  lemma MarkedKeeps(p: Item, audio: bool)
    ensures var q := Marked(p, audio);
            && q.role == p.role && q.generation == p.generation && q.textOnly == p.textOnly
            && q.generated == p.generated && q.sent == p.sent && q.played == p.played
  {}

  lemma MarkOk(c: Config, b: Books, audio: bool)
    requires BooksOk(c, b)
    ensures BooksOk(c, b.(items := ConversationModel.Done(b.items, b.gen, audio)))
  {
    hide StoreOk, ValidConfig, F.WindowOk, Marked;
    DoneBounded(c, b.items, b.gen, audio);
    if PendingAt(b.items, b.gen) {
      PendingCurrent(c, b, b.gen);
      MarkedKeeps(b.items[|b.items| - 1], audio);
    }
  }

  lemma TextDoneOk(c: Config, b: Books, id: string)
    requires BooksOk(c, b)
    ensures BooksOk(c, TextDone(b, id)) && Onward(b, TextDone(b, id))
  {
    MarkOk(c, b, false);
    hide BooksOk;
  }

  lemma AudioDoneOk(c: Config, b: Books)
    requires BooksOk(c, b)
    ensures BooksOk(c, AudioDone(b)) && Onward(b, AudioDone(b))
  {
    hide StoreOk, ConversationModel.Done, ValidConfig, F.WindowOk;
    MarkOk(c, b, true);
    SyncOk(c, b.(items := ConversationModel.Done(b.items, b.gen, true)));
  }

  lemma OpenFlowOk(c: Config, b: Books, id: string, rate: int)
    requires BooksOk(c, b)
    ensures BooksOk(c, OpenFlow(b, id, rate).0) && Onward(b, OpenFlow(b, id, rate).0)
  {
    hide StoreOk, ValidConfig;
  }

  lemma SameBooks(b: Books, d: Books)
    requires d.items == b.items && d.timeline == b.timeline && d.gen == b.gen && Owned(b) && Mirrored(b)
    ensures Owned(d) && Mirrored(d)
  {}

  lemma RequireCreditOk(c: Config, b: Books)
    requires BooksOk(c, b)
    ensures BooksOk(c, RequireCredit(b).0) && Onward(b, RequireCredit(b).0)
  {
    hide StoreOk, ValidConfig, F.WindowOk;
  }

  lemma GrantPlayed(f: F.FlowState, requested: int)
    ensures F.Apply(f, F.ReserveOp(requested)).played == f.played
  {
  }

  // A grant moves no position.
  lemma ReserveOk(c: Config, b: Books, requested: int)
    requires BooksOk(c, b)
    ensures BooksOk(c, Reserve(b, requested)) && Onward(b, Reserve(b, requested))
  {
    hide StoreOk, ValidConfig, F.WindowOk, F.Apply, Owned, Mirrored, TimelineOk;
    if b.flow.Some? {
      F.ApplyOk(b.flow.value, F.ReserveOp(requested));
      GrantPlayed(b.flow.value, requested);
      SameBooks(b, Reserve(b, requested));
    }
  }

  // Moving the timeline forward and following it keeps the books.
  lemma AdvanceOk(c: Config, b: Books, t: Timeline, flow: Option<F.FlowState>)
    requires Core(c, b) && b.timeline.Some? && TimelineOk(t)
    requires t.generated == b.timeline.value.generated && t.sent >= b.timeline.value.sent
             && t.played >= b.timeline.value.played
    requires flow.Some? ==> F.WindowOk(flow.value) && t.played >= Min(flow.value.played, t.sent)
    ensures var d := Sync(b.(timeline := Some(t), flow := flow)); BooksOk(c, d) && Onward(b, d)
  {
    hide StoreOk, ValidConfig, F.WindowOk, Progress;
    SyncOk(c, b.(timeline := Some(t), flow := flow));
  }

  // Only generated frames are written: the packet loop sends what was registered.
  lemma RecordSentOk(c: Config, b: Books, id: string, frames: int)
    requires BooksOk(c, b)
    requires Active(b, id) && b.timeline.Some? ==>
               b.timeline.value.sent + Max(frames, 0) <= b.timeline.value.generated
    ensures BooksOk(c, RecordSent(b, id, frames)) && Onward(b, RecordSent(b, id, frames))
  {
    hide StoreOk, Owned, Mirrored, ValidConfig, Sync, F.WindowOk;
    if Active(b, id) && b.timeline.Some? {
      var t := b.timeline.value;
      var u := t.(sent := t.sent + Max(frames, 0));
      AdvanceOk(c, b, if b.flow.Some? then PlayedTo(u, Min(b.flow.value.played, u.sent)) else u, b.flow);
    }
  }

  // The acknowledged position is not behind the window's, except for writes
  // still to be recorded.
  ghost predicate Caught(b: Books, frames: int) {
    b.flow.Some? && b.timeline.Some? ==>
      Min(b.flow.value.played, b.timeline.value.sent) <= Max(b.timeline.value.played, frames)
  }

  lemma RecordSourceOk(c: Config, b: Books, frames: int)
    requires Core(c, b) && Caught(b, frames) && (b.timeline.None? || frames < 0 ==> NoLostAck(b))
    ensures BooksOk(c, RecordSource(b, frames).0) && Onward(b, RecordSource(b, frames).0)
  {
    if frames >= 0 && b.timeline.Some? {
      if b.flow.Some? { F.ApplyOk(b.flow.value, F.AcknowledgeOp(frames)); }
      hide StoreOk, Owned, Mirrored, ValidConfig, F.WindowOk;
      AdvanceOk(c, b, PlayedTo(b.timeline.value, Min(frames, b.timeline.value.sent)),
                if b.flow.Some? then Some(F.Acknowledged(b.flow.value, frames)) else None);
    }
  }

  lemma RecordPositionOk(c: Config, b: Books, id: string, frames: int)
    requires BooksOk(c, b)
    ensures BooksOk(c, RecordPosition(b, id, frames).0) && Onward(b, RecordPosition(b, id, frames).0)
  {
    if Active(b, id) { RecordSourceOk(c, b, frames); }
    hide Core;
  }

  lemma UpdateCreditOk(c: Config, b: Books, id: string, credit: F.Credit)
    requires BooksOk(c, b)
    ensures BooksOk(c, UpdateCredit(b, id, credit).0) && Onward(b, UpdateCredit(b, id, credit).0)
  {
    hide StoreOk, ValidConfig, Sync, Owned, Mirrored, TimelineOk;
    if Active(b, id) && b.flow.Some? && F.Acceptable(b.flow.value, credit) {
      var f := F.Updated(b.flow.value, credit);
      F.ApplyOk(b.flow.value, F.UpdateOp(credit));
      assert Mirrored(b.(flow := Some(f))) && Owned(b.(flow := Some(f))) by { SameBooks(b, b.(flow := Some(f))); }
      hide F.WindowOk, F.Acceptable, F.Updated;
      RecordSourceOk(c, b.(flow := Some(f)), f.played);
    }
  }

  lemma PauseTimelineOk(c: Config, b: Books, paused: bool)
    requires BooksOk(c, b)
    ensures BooksOk(c, PauseTimeline(b, paused)) && Onward(b, PauseTimeline(b, paused))
  {
    hide StoreOk, ValidConfig, F.WindowOk;
  }

  // A new generation's answer is the newest item, with nothing generated yet.
  lemma BeginGenerationOk(c: Config, b: Books, item: string, turn: string, gen: string, textOnly: bool)
    requires BooksOk(c, b) && gen != "" && FindAssistant(b.items, gen, 0) == |b.items|
    requires Answerable(FinalizeCurrent(b).items, turn)
    ensures BooksOk(c, BeginGeneration(c, b, item, turn, gen, textOnly))
  {
    hide StoreOk, FinalizeCurrent, ValidConfig, BeginAssistant, Answerable, F.WindowOk;
    FinalizeOk(c, b);
    FinalizeSameIds(c, b, gen);
    var d := FinalizeCurrent(b);
    BeginStoreOk(c, d.items, item, turn, gen, textOnly);
    BeginLast(c, d.items, item, turn, gen, textOnly);
  }

  lemma BeginStoreOk(c: Config, items: seq<Item>, item: string, turn: string, gen: string, textOnly: bool)
    requires ValidConfig(c) && StoreOk(c, items) && Settled(items) && Answerable(items, turn)
             && FindAssistant(items, gen, 0) == |items|
    ensures StoreOk(c, BeginAssistant(c, items, item, turn, gen, textOnly))
  {
    hide StoreOk, BeginAssistant;
    ApplyBounded(c, items, BeginAssistantOp(item, turn, gen, textOnly));
  }

  lemma BeginLast(c: Config, items: seq<Item>, item: string, turn: string, gen: string, textOnly: bool)
    requires ValidConfig(c) && StoreOk(c, items) && Settled(items) && Answerable(items, turn)
             && FindAssistant(items, gen, 0) == |items|
    ensures var r := BeginAssistant(c, items, item, turn, gen, textOnly);
            r[|r| - 1] == AssistantItem(item, turn, gen, textOnly)
  {
    NewItemsOk(item, turn, [], gen, textOnly);
    NewFits(c, item, turn, [], gen, textOnly);
    hide Shape, ItemOk, ItemFits;
    AddShape(c, items, AssistantItem(item, turn, gen, textOnly));
    TrimBounded(c, items + [AssistantItem(item, turn, gen, textOnly)], turn);
  }

  lemma SyncIdentity(b: Books)
    ensures |Sync(b).items| == |b.items|
    ensures forall i | 0 <= i < |b.items| :: SameIdentity(b.items[i], Sync(b).items[i])
  {}

  lemma FinalizeIdentity(b: Books)
    ensures |Finalize(b.items, b.gen)| == |b.items|
    ensures forall i | 0 <= i < |b.items| :: SameIdentity(b.items[i], Finalize(b.items, b.gen)[i])
  {}

  // Settling an answer changes no identity.
  lemma FinalizeSameIds(c: Config, b: Books, gen: string)
    requires BooksOk(c, b)
    ensures |FinalizeCurrent(b).items| == |b.items|
    ensures forall i | 0 <= i < |b.items| :: SameIdentity(b.items[i], FinalizeCurrent(b).items[i])
    ensures FindAssistant(FinalizeCurrent(b).items, gen, 0) == FindAssistant(b.items, gen, 0)
  {
    FinalizeOk(c, b);
    SyncIdentity(b);
    FinalizeIdentity(Sync(b));
    IdentityFound(b.items, FinalizeCurrent(b).items, gen, 0);
  }

  ghost predicate SameIdentity(p: Item, q: Item) {
    q.id == p.id && q.role == p.role && q.turn == p.turn && q.generation == p.generation
  }

  lemma {:induction false} IdentityFound(a: seq<Item>, b: seq<Item>, gen: string, from: nat)
    requires |a| == |b| && from <= |a| && forall i | 0 <= i < |a| :: SameIdentity(a[i], b[i])
    ensures FindAssistant(a, gen, from) == FindAssistant(b, gen, from)
    decreases |a| - from
  {
    if from < |a| { IdentityFound(a, b, gen, from + 1); }
  }

  lemma SettledMirrored(b: Books, d: Books)
    requires d.items == b.items && Settled(b.items) && d.gen == ""
    ensures Mirrored(d) && Owned(d)
  {}

  lemma EndGenerationOk(c: Config, b: Books)
    requires BooksOk(c, b)
    ensures BooksOk(c, EndGeneration(b)) && Settled(EndGeneration(b).items)
  {
    hide StoreOk, FinalizeCurrent, ValidConfig, F.WindowOk, Mirrored;
    FinalizeOk(c, b);
    SettledMirrored(FinalizeCurrent(b), EndGeneration(b));
  }

  // With nothing pending, finalizing changes nothing.
  lemma SettledFinal(c: Config, b: Books)
    requires StoreOk(c, b.items) && Settled(b.items)
    ensures FinalizeCurrent(b) == b
  {
    if PendingAt(b.items, b.gen) {
      PendingIsLast(c, b.items, b.gen);
      assert false;
    }
  }

  // The user's text enters a settled history as its newest item.
  lemma CommitUserOk(c: Config, items: seq<Item>, user: string, turn: string, text: Text)
    requires ValidConfig(c) && StoreOk(c, items) && Settled(items) && FreshTurn(items, turn)
    requires c.valid(text) && !c.blank(text) && |text| <= c.maxItemBytes
    ensures var r := CommitUser(c, items, user, turn, text);
            && r.1 == Accepted && StoreOk(c, r.0) && Settled(r.0) && Answerable(r.0, turn)
            && r.0 == Trim(c, items + [UserItem(user, turn, text)], turn)
  {
    assert items[0].role == System;
    assert FindUser(items, turn, 0) == |items|;
    ApplyBounded(c, items, CommitUserOp(user, turn, text));
    NewItemsOk(user, turn, text, "", false);
    NewFits(c, user, turn, text, "", false);
    hide Shape, ItemOk, ItemFits;
    AddShape(c, items, UserItem(user, turn, text));
    TrimBounded(c, items + [UserItem(user, turn, text)], turn);
  }

  // Answering a committed turn opens a generation whose answer is the newest item.
  lemma AnswerOk(c: Config, b: Books, items: seq<Item>, item: string, turn: string, gen: string, textOnly: bool)
    requires BooksOk(c, b) && StoreOk(c, items) && Settled(items) && Answerable(items, turn)
    requires gen != "" && FindAssistant(items, gen, 0) == |items|
    ensures FinalizeCurrent(b.(items := items)) == b.(items := items)
    ensures BooksOk(c, BeginGeneration(c, b.(items := items), item, turn, gen, textOnly))
  {
    hide StoreOk, FinalizeCurrent, ValidConfig, BeginAssistant, Answerable, F.WindowOk, Settled;
    SettledFinal(c, b.(items := items));
    BeginStoreOk(c, items, item, turn, gen, textOnly);
    BeginLast(c, items, item, turn, gen, textOnly);
  }
}
