// The race between a write and its acknowledgement: the client may have played a
// packet before the server has recorded it as sent. For credit snapshots the order
// leaves no trace; for plain positions exactly when it does is stated.
module PlaybackRace {
  import opened Arithmetic
  import opened Options
  import F = Flow
  import opened ConversationModel
  import opened ConversationHistory
  import opened ConversationBounds
  import opened Playback

  // --- following twice is following once --------------------------------------

  lemma ChunkTwice(d: Chunk, s: int, p: int, sent: int, played: int)
    requires s <= sent && p <= played
    ensures AdvanceChunk(AdvanceChunk(d, s, p), sent, played) == AdvanceChunk(d, sent, played)
  {
  }

  lemma ChunksTwice(chunks: seq<Chunk>, s: int, p: int, sent: int, played: int)
    requires s <= sent && p <= played
    ensures AdvanceChunks(AdvanceChunks(chunks, s, p), sent, played) == AdvanceChunks(chunks, sent, played)
  {
    forall i | 0 <= i < |chunks|
      ensures AdvanceChunk(AdvanceChunk(chunks[i], s, p), sent, played) == AdvanceChunk(chunks[i], sent, played)
    {
      ChunkTwice(chunks[i], s, p, sent, played);
    }
  }

  // An answer that an earlier position completes was heard in full then.
  lemma CompletedHeard(p: Item, s: int, q: int)
    requires ItemOk(p) && p.status == Pending && !p.textOnly && p.sent <= s <= p.generated && p.played <= q <= s
    ensures var d := Progressed(p, s, q); d.status == Pending || q == p.generated
  {
    var d := Progressed(p, s, q);
    ProgressedOk(p, s, q);
    if d.chunks != [] {
      hide Progressed, Tiled, Counted, AllPlayed;
      ProgressedCounts(p, s, q);
      if d.status != Pending { HeardInFull(p, s, q); }
    }
  }

  lemma HeardInFull(p: Item, s: int, q: int)
    requires ItemOk(p) && p.status == Pending && !p.textOnly && p.sent <= s <= p.generated && p.played <= q <= s
    requires Progressed(p, s, q).chunks != [] && Progressed(p, s, q).status != Pending
    ensures Progressed(p, s, q).played == p.generated
  {
    ProgressedOk(p, s, q);
    AllPlayedIffHeard(Progressed(p, s, q));
  }

  lemma ProgressedIs(p: Item, s: int, q: int)
    requires p.sent <= s <= p.generated && p.played <= q <= s
    ensures Progressed(p, s, q) == Complete(p.(sent := s, played := q, chunks := AdvanceChunks(p.chunks, s, q)))
  {
    hide Complete, AdvanceChunks;
  }

  lemma StillPending(p: Item)
    requires Complete(p).status == Pending
    ensures Complete(p) == p
  {
    hide AllPlayed;
  }

  lemma ProgressedTwice(p: Item, s: int, q: int, sent: int, played: int)
    requires ItemOk(p) && p.status == Pending && !p.textOnly && p.sent <= s <= sent <= p.generated
    requires p.played <= q <= s && q <= played <= sent
    ensures var d := Progressed(p, s, q);
            (if d.status == Pending then Progressed(d, sent, played) else d) == Progressed(p, sent, played)
  {
    hide ItemOk, AdvanceChunks, Progressed, Complete;
    CompletedHeard(p, s, q);
    ProgressedIs(p, s, q);
    ProgressedIs(p, sent, played);
    var d := Progressed(p, s, q);
    if d.status == Pending {
      StillPending(p.(sent := s, played := q, chunks := AdvanceChunks(p.chunks, s, q)));
      ChunksTwice(p.chunks, s, q, sent, played);
      ProgressedIs(d, sent, played);
    }
  }

  lemma ProgressAt(items: seq<Item>, k: nat, gen: string, sent: int, played: int)
    requires k < |items| && FindAssistant(items, gen, 0) == k && !items[k].textOnly
    ensures Progress(items, gen, sent, played) ==
            if items[k].status == Pending then items[k := Progressed(items[k], sent, played)] else items
  {
    hide Progressed;
  }

  lemma ProgressTwice(c: Config, items: seq<Item>, gen: string, s: int, q: int, sent: int, played: int)
    requires StoreOk(c, items)
    requires items[|items| - 1].status == Pending ==>
               var p := items[|items| - 1];
               p.sent <= s <= sent <= p.generated && p.played <= q <= s && q <= played <= sent
    ensures Progress(Progress(items, gen, s, q), gen, sent, played) == Progress(items, gen, sent, played)
  {
    if PendingAt(items, gen) {
      PendingIsLast(c, items, gen);
      assert ItemOk(items[|items| - 1]);
      hide StoreOk, ItemOk;
      if !items[|items| - 1].textOnly { ProgressLastTwice(items, gen, s, q, sent, played); }
    }
  }

  lemma ProgressLastTwice(items: seq<Item>, gen: string, s: int, q: int, sent: int, played: int)
    requires items != [] && FindAssistant(items, gen, 0) == |items| - 1
    requires var p := items[|items| - 1];
             && ItemOk(p) && p.status == Pending && !p.textOnly && p.sent <= s <= sent <= p.generated
             && p.played <= q <= s && q <= played <= sent
    ensures Progress(Progress(items, gen, s, q), gen, sent, played) == Progress(items, gen, sent, played)
  {
    var k, p := |items| - 1, items[|items| - 1];
    var d := Progressed(p, s, q);
    ProgressedTwice(p, s, q, sent, played);
    ProgressedSame(p, s, q);
    hide ItemOk, Progressed, SameIdentity, Progress;
    FoundAgain(items, k, d, gen);
    ProgressAt(items, k, gen, s, q);
    ProgressAt(items, k, gen, sent, played);
    ProgressAt(items[k := d], k, gen, sent, played);
    assert items[k := d][k := Progressed(d, sent, played)] == items[k := Progressed(d, sent, played)];
  }

  lemma ProgressedSame(p: Item, s: int, q: int)
    ensures SameIdentity(p, Progressed(p, s, q)) && Progressed(p, s, q).textOnly == p.textOnly
  {
  }

  lemma FoundAgain(items: seq<Item>, k: nat, d: Item, gen: string)
    requires k < |items| && FindAssistant(items, gen, 0) == k && SameIdentity(items[k], d)
    ensures FindAssistant(items[k := d], gen, 0) == k
  {
    IdentityFound(items, items[k := d], gen, 0);
  }

  // Books whose timeline and window have moved on, followed.
  function Moved(b: Books, t: Timeline, f: F.FlowState): Books { Sync(b.(timeline := Some(t), flow := Some(f))) }

  lemma MovedTwice(c: Config, b: Books, t: Timeline, f: F.FlowState, last: Timeline, g: F.FlowState)
    requires Core(c, b) && b.timeline.Some? && last.generated == b.timeline.value.generated
    requires TimelineOk(t) && TimelineOk(last) && t.generated == b.timeline.value.generated
    requires b.timeline.value.sent <= t.sent <= last.sent && b.timeline.value.played <= t.played <= last.played
    ensures Moved(Moved(b, t, f), last, g) == Moved(b, last, g)
  {
    hide StoreOk, ValidConfig, F.WindowOk, Progress;
    ProgressTwice(c, b.items, b.gen, t.sent, t.played, last.sent, last.played);
  }

  // --- credit snapshots -------------------------------------------------------

  function Recorded(t: Timeline, frames: int): Timeline { t.(sent := t.sent + Max(frames, 0)) }

  // Where the window's position puts the timeline.
  function Reached(t: Timeline, f: F.FlowState): Timeline { PlayedTo(t, Min(f.played, t.sent)) }

  // Position and record on the timeline, in either order.
  lemma ReachedTwice(t: Timeline, f: F.FlowState, g: F.FlowState, frames: int)
    requires TimelineOk(t) && 0 <= f.played <= g.played
    ensures Reached(Recorded(Reached(t, g), frames), g) == Reached(Recorded(t, frames), g)
    ensures Reached(Reached(Recorded(t, frames), f), g) == Reached(Recorded(t, frames), g)
  {
  }

  lemma RecordSentIs(b: Books, id: string, frames: int)
    requires Active(b, id) && b.timeline.Some? && b.flow.Some?
    ensures RecordSent(b, id, frames) ==
            Moved(b, Reached(Recorded(b.timeline.value, frames), b.flow.value), b.flow.value)
  {
    hide Sync, PlayedTo;
  }

  lemma UpdateCreditIs(b: Books, id: string, credit: F.Credit)
    requires Active(b, id) && b.timeline.Some? && b.flow.Some? && F.WindowOk(b.flow.value)
    requires F.Acceptable(b.flow.value, credit)
    ensures var g := F.Updated(b.flow.value, credit);
      UpdateCredit(b, id, credit) == (Moved(b, Reached(b.timeline.value, g), g), Done)
  {
    var g := F.Updated(b.flow.value, credit);
    assert F.Acknowledged(g, g.played) == g && g.played >= 0;
    hide Sync, PlayedTo, F.Acceptable, F.Updated, F.Acknowledged;
  }

  // A snapshot that overtakes the record of the write it acknowledges leaves the
  // books exactly as if it had come after.
  lemma CreditRecordCommute(c: Config, b: Books, id: string, credit: F.Credit, frames: int)
    requires BooksOk(c, b)
    requires Active(b, id) && b.timeline.Some? ==>
               b.flow.Some? && b.timeline.value.sent + Max(frames, 0) <= b.timeline.value.generated
    ensures RecordSent(UpdateCredit(b, id, credit).0, id, frames) ==
            UpdateCredit(RecordSent(b, id, frames), id, credit).0
    ensures UpdateCredit(RecordSent(b, id, frames), id, credit).1 == UpdateCredit(b, id, credit).1
  {
    if Active(b, id) && b.timeline.Some? {
      hide Core, NoLostAck, TimelineOk, F.WindowOk, F.Acceptable, UpdateCredit, RecordSent, Moved;
      if F.Acceptable(b.flow.value, credit) {
        AcceptedCommute(c, b, id, credit, frames);
      } else {
        RecordSentIs(b, id, frames);
        RefusedKeeps(b, id, credit);
        MovedKeeps(b, Reached(Recorded(b.timeline.value, frames), b.flow.value), b.flow.value);
        RefusedKeeps(RecordSent(b, id, frames), id, credit);
      }
    }
  }

  lemma RefusedKeeps(b: Books, id: string, credit: F.Credit)
    requires b.flow.Some? && Active(b, id) && !F.Acceptable(b.flow.value, credit)
    ensures UpdateCredit(b, id, credit) == (b, BadCredit)
  {
  }

  lemma MovedKeeps(b: Books, t: Timeline, f: F.FlowState)
    ensures var d := Moved(b, t, f); d.timeline == Some(t) && d.flow == Some(f) && d.gen == b.gen && d.live == b.live
  {
  }

  lemma AcceptedCommute(c: Config, b: Books, id: string, credit: F.Credit, frames: int)
    requires BooksOk(c, b) && Active(b, id) && b.timeline.Some? && b.flow.Some?
    requires F.Acceptable(b.flow.value, credit)
    requires b.timeline.value.sent + Max(frames, 0) <= b.timeline.value.generated
    ensures RecordSent(UpdateCredit(b, id, credit).0, id, frames) ==
            UpdateCredit(RecordSent(b, id, frames), id, credit).0
    ensures UpdateCredit(b, id, credit).1 == UpdateCredit(RecordSent(b, id, frames), id, credit).1
  {
    var t, f, g := b.timeline.value, b.flow.value, F.Updated(b.flow.value, credit);
    assert TimelineOk(t) && F.WindowOk(f);
    F.ApplyOk(f, F.UpdateOp(credit));
    var early, late := Reached(t, g), Reached(Recorded(t, frames), f);
    var last := Reached(Recorded(t, frames), g);
    TimesOk(t, f, g, frames);
    hide BooksOk, F.WindowOk, F.Acceptable, F.Updated, UpdateCredit, RecordSent, Moved, Reached, Recorded, TimelineOk;
    MovedKeeps(b, early, g);
    MovedKeeps(b, late, f);
    UpdateCreditIs(b, id, credit);
    RecordSentIs(Moved(b, early, g), id, frames);
    RecordSentIs(b, id, frames);
    UpdateCreditIs(Moved(b, late, f), id, credit);
    BooksCore(c, b);
    MovedTwice(c, b, early, g, last, g);
    MovedTwice(c, b, late, f, last, g);
  }

  lemma BooksCore(c: Config, b: Books)
    requires BooksOk(c, b)
    ensures Core(c, b)
  {
  }

  lemma TimesOk(t: Timeline, f: F.FlowState, g: F.FlowState, frames: int)
    requires TimelineOk(t) && 0 <= f.played <= g.played && t.sent + Max(frames, 0) <= t.generated
    ensures var early, late, last := Reached(t, g), Reached(Recorded(t, frames), f), Reached(Recorded(t, frames), g);
      && TimelineOk(early) && TimelineOk(late) && TimelineOk(last)
      && early.generated == late.generated == last.generated == t.generated
      && t.sent <= early.sent <= last.sent && t.sent <= late.sent <= last.sent
      && t.played <= early.played <= last.played && t.played <= late.played <= last.played
      && Reached(Recorded(early, frames), g) == last && Reached(late, g) == last
  {
    ReachedTwice(t, f, g, frames);
  }

  // --- plain positions --------------------------------------------------------

  // Where a plain position puts the timeline.
  function Told(t: Timeline, frames: int): Timeline { PlayedTo(t, Min(frames, t.sent)) }

  lemma RecordPositionIs(b: Books, id: string, position: int)
    requires Active(b, id) && b.timeline.Some? && b.flow.Some? && position >= 0
    ensures var g := F.Acknowledged(b.flow.value, position);
      RecordPosition(b, id, position) == (Moved(b, Told(b.timeline.value, position), g), Done)
  {
    hide Sync, PlayedTo, F.Acknowledged;
  }

  // What an early position says beyond the recorded frames is heard if nothing is
  // beyond them, if no frames are recorded, if the window or an earlier position
  // covers it, or if the window takes plain positions, without explicit credit.
  predicate Heeded(t: Timeline, f: F.FlowState, position: int, frames: int) {
    || !f.explicit || position <= t.sent || frames <= 0
    || Min(position, t.sent + frames) <= Max(t.played, Min(f.played, t.sent + frames))
  }

  lemma ToldSame(t: Timeline, f: F.FlowState, position: int, frames: int)
    requires TimelineOk(t) && 0 <= f.played && position >= 0 && t.sent + Max(frames, 0) <= f.reserved
    ensures Reached(Recorded(Told(t, position), frames), F.Acknowledged(f, position))
              == Told(Reached(Recorded(t, frames), f), position)
            <==> Heeded(t, f, position, frames)
  {
  }

  // On their way positions only grow.
  lemma ToldOk(t: Timeline, f: F.FlowState, g: F.FlowState, position: int, frames: int)
    requires TimelineOk(t) && 0 <= f.played && 0 <= g.played && position >= 0
    requires t.sent + Max(frames, 0) <= t.generated
    ensures var early, late := Told(t, position), Reached(Recorded(t, frames), f);
      var first, second := Reached(Recorded(early, frames), g), Told(late, position);
      && TimelineOk(early) && TimelineOk(late) && TimelineOk(first) && TimelineOk(second)
      && early.generated == late.generated == first.generated == second.generated == t.generated
      && t.sent <= early.sent <= first.sent && t.sent <= late.sent <= second.sent
      && t.played <= early.played <= first.played && t.played <= late.played <= second.played
  {
  }

  // A plain position that overtakes the record leaves the books as if it had come
  // after, if and only if all it says is heeded.
  lemma PositionRecordExact(c: Config, b: Books, id: string, position: int, frames: int)
    requires BooksOk(c, b) && Active(b, id) && b.timeline.Some? && b.flow.Some? && position >= 0
    requires var sent := b.timeline.value.sent + Max(frames, 0);
             sent <= b.timeline.value.generated && sent <= b.flow.value.reserved
    ensures RecordSent(RecordPosition(b, id, position).0, id, frames)
              == RecordPosition(RecordSent(b, id, frames), id, position).0
            <==> Heeded(b.timeline.value, b.flow.value, position, frames)
  {
    var t, f, g := b.timeline.value, b.flow.value, F.Acknowledged(b.flow.value, position);
    assert TimelineOk(t) && F.WindowOk(f) && f.played >= 0;
    var early, late := Told(t, position), Reached(Recorded(t, frames), f);
    var first, second := Reached(Recorded(early, frames), g), Told(late, position);
    ToldSame(t, f, position, frames);
    F.ApplyOk(f, F.AcknowledgeOp(position));
    ToldOk(t, f, g, position, frames);
    hide BooksOk, F.WindowOk, F.Acknowledged, RecordPosition, RecordSent, Moved, Reached, Recorded, Told, TimelineOk,
         Heeded;
    MovedKeeps(b, early, g);
    MovedKeeps(b, late, f);
    RecordPositionIs(b, id, position);
    RecordSentIs(Moved(b, early, g), id, frames);
    RecordSentIs(b, id, frames);
    RecordPositionIs(Moved(b, late, f), id, position);
    BooksCore(c, b);
    MovedTwice(c, b, early, g, first, g);
    MovedTwice(c, b, late, f, second, g);
    MovedKeeps(b, first, g);
    MovedKeeps(b, second, g);
  }
}