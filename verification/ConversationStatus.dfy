// When an answer is settled, and as what: completed once everything was heard,
// interrupted or cancelled when it is ended before.
module ConversationStatus {
  import opened Arithmetic
  import opened ConversationModel
  import opened ConversationHistory

  // An answer in text is complete when all that was generated was written, a spoken
  // one when its audio is complete and every frame of it was heard; a spoken one that
  // never had any audio is cancelled.
  predicate Heard(q: Item) {
    q.llmDone && (if q.textOnly then q.content == q.sentText
                  else q.audioDone && q.chunks != [] && q.played == q.generated)
  }

  predicate Mute(q: Item) { q.llmDone && !q.textOnly && q.audioDone && q.chunks == [] }

  function StatusOf(q: Item): Status { if Heard(q) then Completed else if Mute(q) then Cancelled else Pending }

  // The listener got something of it.
  predicate Begun(q: Item) { if q.textOnly then q.sentText != [] || q.played != 0 else q.played > 0 }

  lemma CompleteExact(p: Item)
    requires p.status == Pending && Tiled(p) && Counted(p)
    ensures Complete(p) == p.(status := StatusOf(p))
  {
    if p.chunks != [] { AllPlayedIffHeard(p); }
    hide AllPlayed;
  }

  // Marking an answer done settles it if that was all that was missing.
  lemma MarkedExact(p: Item, audio: bool)
    requires ItemOk(p) && p.status == Pending
    ensures var q := p.(llmDone := p.llmDone || !audio, audioDone := p.audioDone || audio);
            Marked(p, audio) == q.(status := StatusOf(q))
  {
    CompleteExact(p.(llmDone := p.llmDone || !audio, audioDone := p.audioDone || audio));
    hide Complete;
  }

  // Progress counts what was sent and what was played of it, neither backwards nor
  // beyond what was generated, and settles an answer that was heard to its end.
  lemma ProgressedExact(p: Item, sent: int, played: int)
    requires ItemOk(p) && p.status == Pending
    ensures var s := Max(p.sent, Min(sent, p.generated));
            var q := Progressed(p, sent, played);
            && q.sent == s && q.played == Max(p.played, Min(played, s)) && q.generated == p.generated
            && q.status == StatusOf(q)
            && q == p.(sent := q.sent, played := q.played, chunks := q.chunks, status := q.status)
            && |q.chunks| == |p.chunks|
            && forall i | 0 <= i < |p.chunks| ::
                 q.chunks[i] == p.chunks[i].(sent := Max(p.chunks[i].sent, Clamp(s - p.chunks[i].start, 0,
                                                                                 p.chunks[i].end - p.chunks[i].start)),
                                             played := q.chunks[i].played)
                 && (q.chunks[i].played <==> p.chunks[i].end <= q.played)
  {
    hide Min;
    ProgressedOk(p, sent, played);
    var s := Max(p.sent, Min(sent, p.generated));
    var n := Max(p.played, Min(played, s));
    var q := p.(sent := s, played := n, chunks := AdvanceChunks(p.chunks, s, n));
    assert Progressed(p, sent, played) == Complete(q);
    CompleteKeeps(q);
    assert Tiled(q) && Counted(q) by { assert ItemOk(Complete(q)); }
    CompleteExact(q);
    hide Complete, Progressed, ItemOk;
  }

  // An answer that is ended before is interrupted if anything of it was heard, and
  // cancelled if nothing was.
  lemma FinalizedExact(p: Item)
    requires ItemOk(p) && p.status == Pending
    ensures Finalized(p) ==
            p.(status := if StatusOf(p) != Pending then StatusOf(p) else if Begun(p) then Interrupted else Cancelled)
  {
    CompleteExact(p);
    if !p.textOnly {
      DeliveredIsHeard(p);
      if p.played == 0 { NothingHeard(p.chunks, 0); }
    }
    hide Complete, Delivered, HeardText;
  }

  // Positions, completion and settling concern the pending answer of their generation
  // and nothing else; positions leave an answer in text alone.
  lemma OnlyItsAnswer(items: seq<Item>, gen: string, sent: int, played: int, audio: bool)
    ensures var k := FindAssistant(items, gen, 0);
            && (Progress(items, gen, sent, played) ==
                if k == |items| || items[k].status != Pending || items[k].textOnly then items
                else items[k := Progressed(items[k], sent, played)])
            && (Done(items, gen, audio) ==
                if k == |items| || items[k].status != Pending then items else items[k := Marked(items[k], audio)])
            && (Finalize(items, gen) ==
                if k == |items| || items[k].status != Pending then items else items[k := Finalized(items[k])])
  {
    hide Progressed, Marked, Finalized;
  }
}
