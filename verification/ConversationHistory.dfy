// History soundness: what any sequence of operations keeps true of every item,
// and how a store evolves.
module ConversationHistory {
  import opened Arithmetic
  import opened ConversationModel

  // Chunks continue each other; the last one ends at the generated count.
  ghost predicate Tiled(p: Item) {
    && (forall i | 0 <= i < |p.chunks| :: p.chunks[i].sequence == i && 0 <= p.chunks[i].start < p.chunks[i].end)
    && (forall i, j | 0 <= i < j < |p.chunks| && j == i + 1 :: p.chunks[j].start == p.chunks[i].end)
    && p.generated == (if p.chunks == [] then 0 else p.chunks[|p.chunks| - 1].end)
  }

  // Counts are ordered, and each chunk's own counts are its share of the item's.
  ghost predicate Counted(p: Item) {
    && 0 <= p.played <= p.sent <= p.generated
    && (forall i | 0 <= i < |p.chunks| ::
          && p.chunks[i].sent == Clamp(p.sent - p.chunks[i].start, 0, p.chunks[i].end - p.chunks[i].start)
          && (p.chunks[i].played <==> p.chunks[i].end <= p.played))
  }

  // What each role and status means.
  ghost predicate Meaningful(p: Item) {
    && (p.role != Assistant ==> p.status == Committed && p.chunks == [] && p.sentText == [] && !p.textOnly)
    && (p.role == Assistant ==> p.status != Committed)
    && (p.textOnly ==> p.chunks == [])
    && (p.status == Completed ==> p.llmDone && if p.textOnly then p.content == p.sentText
                                               else p.chunks != [] && p.played == p.generated)
    && (p.status == Cancelled ==> Delivered(p) == [] && p.played == 0)
  }

  ghost predicate ItemOk(p: Item) { Tiled(p) && Counted(p) && Meaningful(p) }

  ghost predicate HistoryOk(items: seq<Item>) { items != [] && forall i | 0 <= i < |items| :: ItemOk(items[i]) }

  // --- one item --------------------------------------------------------------

  lemma Ordered(p: Item, i: nat, j: nat)
    requires Tiled(p) && i <= j < |p.chunks|
    ensures p.chunks[i].end <= p.chunks[j].end && (i < j ==> p.chunks[i].end <= p.chunks[j].start)
    decreases j - i
  {
    if i < j { Ordered(p, i, j - 1); }
  }

  // Played flags form a prefix.
  lemma PlayedPrefix(p: Item, i: nat, j: nat)
    requires ItemOk(p) && i <= j < |p.chunks| && p.chunks[j].played
    ensures p.chunks[i].played
  {
    Ordered(p, i, j);
  }

  lemma AllPlayedIffHeard(p: Item)
    requires Tiled(p) && Counted(p) && p.chunks != []
    ensures AllPlayed(p.chunks) <==> p.played == p.generated
  {
    forall i | 0 <= i < |p.chunks| ensures p.chunks[i].end <= p.generated { Ordered(p, i, |p.chunks| - 1); }
  }

  // Status and flags do not touch the counts.
  lemma SameCounts(p: Item, q: Item)
    requires Tiled(p) && Counted(p)
    requires q.chunks == p.chunks && q.generated == p.generated && q.sent == p.sent && q.played == p.played
    ensures Tiled(q) && Counted(q)
  {}

  lemma CompleteOk(p: Item)
    requires Tiled(p) && Counted(p) && p.role == Assistant && p.status == Pending && (p.textOnly ==> p.chunks == [])
    ensures ItemOk(Complete(p)) && Complete(p) == p.(status := Complete(p).status)
  {
    if p.chunks != [] { AllPlayedIffHeard(p); }
    SameCounts(p, Complete(p));
    hide Tiled, Counted;
    assert p.chunks == [] ==> PlayedText(p.chunks) == [];
    if p.chunks == [] { EmptyCounts(p); }
  }

  lemma EmptyCounts(p: Item)
    requires Tiled(p) && Counted(p) && p.chunks == []
    ensures p.played == p.sent == p.generated == 0
  {}

  // One chunk under progress: its sent share is exact and its flag says whether it was heard.
  lemma ChunkAdvances(c: Chunk, sent: int, played: int, s: int, q: int)
    requires c.start < c.end && sent <= s && played <= q <= s
    requires c.sent == Clamp(sent - c.start, 0, c.end - c.start) && (c.played <==> c.end <= played)
    ensures var d := AdvanceChunk(c, s, q);
            && d == c.(sent := d.sent, played := d.played)
            && d.sent == Clamp(s - c.start, 0, c.end - c.start) && (d.played <==> c.end <= q)
  {}

  lemma ChunksAdvance(p: Item, s: int, q: int)
    requires Tiled(p) && Counted(p) && p.sent <= s <= p.generated && p.played <= q <= s
    ensures var r := p.(sent := s, played := q, chunks := AdvanceChunks(p.chunks, s, q));
            Tiled(r) && Counted(r)
  {
    hide AdvanceChunk;
    forall i | 0 <= i < |p.chunks|
      ensures var c := AdvanceChunks(p.chunks, s, q)[i];
              && c == p.chunks[i].(sent := c.sent, played := c.played)
              && c.sent == Clamp(s - c.start, 0, c.end - c.start) && (c.played <==> c.end <= q)
    {
      ChunkAdvances(p.chunks[i], p.sent, p.played, s, q);
    }
    hide AdvanceChunk, Clamp;
  }

  lemma ProgressedOk(p: Item, sent: int, played: int)
    requires ItemOk(p) && p.status == Pending
    ensures ItemOk(Progressed(p, sent, played))
  {
    var s := Max(p.sent, Min(sent, p.generated));
    var q := Max(p.played, Min(played, s));
    ChunksAdvance(p, s, q);
    hide Tiled, Counted;
    CompleteOk(p.(sent := s, played := q, chunks := AdvanceChunks(p.chunks, s, q)));
  }

  lemma MarkedOk(p: Item, audio: bool)
    requires ItemOk(p) && p.status == Pending
    ensures ItemOk(Marked(p, audio))
  {
    var q := if audio then p.(audioDone := true) else p.(llmDone := true);
    SameCounts(p, q);
    CompleteOk(q);
  }

  lemma FinalizedOk(p: Item)
    requires ItemOk(p) && p.status == Pending
    ensures ItemOk(Finalized(p)) && Finalized(p).status != Pending
    ensures Finalized(p) == p.(status := Finalized(p).status)
  {
    CompleteOk(p);
    SameCounts(p, Finalized(p));
    hide Tiled, Counted, PlayedText;
    if Complete(p).status == Pending { StopsShort(p); }
  }

  // An unfinished item ends cancelled when nothing of it was delivered, interrupted otherwise.
  lemma StopsShort(p: Item)
    requires ItemOk(p) && p.status == Pending && Complete(p) == p
    ensures Finalized(p) == p.(status := if Delivered(p) == [] && p.played == 0 then Cancelled else Interrupted)
    ensures Meaningful(Finalized(p))
  {
    hide Tiled, Counted, PlayedText;
  }

  lemma WithTextOk(c: Config, p: Item, text: Text, sent: bool)
    requires ItemOk(p) && p.status == Pending
    ensures ItemOk(WithText(c, p, text, sent).0)
  {
    SameCounts(p, WithText(c, p, text, sent).0);
  }

  lemma WithChunkOk(c: Config, p: Item, sequence: int, text: Text, start: int, end: int)
    requires ItemOk(p) && p.status == Pending
    ensures ItemOk(WithChunk(c, p, sequence, text, start, end).0)
  {
    if WithChunk(c, p, sequence, text, start, end).1 == Accepted {
      assert p.generated <= start;
      AddedTiled(p, Chunk(sequence, text, start, end, 0, false));
      AddedCounted(p, Chunk(sequence, text, start, end, 0, false));
      hide Tiled, Counted;
    }
  }

  ghost predicate Continues(p: Item, d: Chunk) {
    && d.sequence == |p.chunks| && 0 <= p.generated <= d.start < d.end
    && (p.chunks != [] ==> d.start == p.chunks[|p.chunks| - 1].end) && d.sent == 0 && !d.played
  }

  lemma AddedTiled(p: Item, d: Chunk)
    requires Tiled(p) && Continues(p, d)
    ensures Tiled(p.(chunks := p.chunks + [d], generated := d.end))
  {}

  lemma AddedCounted(p: Item, d: Chunk)
    requires Counted(p) && Continues(p, d)
    ensures Counted(p.(chunks := p.chunks + [d], generated := d.end))
  {}

  // --- what history shows ----------------------------------------------------

  // The chunks wholly behind the played position.
  function HeardText(chunks: seq<Chunk>, played: int): Text {
    if chunks == [] then []
    else (if chunks[0].end <= played then chunks[0].text else []) + HeardText(chunks[1..], played)
  }

  lemma {:induction false} PlayedIsHeard(chunks: seq<Chunk>, played: int)
    requires forall i | 0 <= i < |chunks| :: chunks[i].played <==> chunks[i].end <= played
    requires forall i, j | 0 <= i <= j < |chunks| :: chunks[i].end <= chunks[j].end
    ensures PlayedText(chunks) == HeardText(chunks, played)
  {
    if chunks != [] {
      forall i, j | 0 <= i <= j < |chunks[1..]| ensures chunks[1..][i].end <= chunks[1..][j].end {
        assert chunks[i + 1].end <= chunks[j + 1].end;
      }
      PlayedIsHeard(chunks[1..], played);
      if !chunks[0].played { NothingHeard(chunks, played); }
    }
  }

  lemma {:induction false} NothingHeard(chunks: seq<Chunk>, played: int)
    requires forall i | 0 <= i < |chunks| :: chunks[i].end > played
    ensures HeardText(chunks, played) == []
  {
    if chunks != [] {
      assert chunks[0].end > played;
      NothingHeard(chunks[1..], played);
    }
  }

  // Delivered text is exactly the text of the chunks the listener heard in full.
  lemma DeliveredIsHeard(p: Item)
    requires ItemOk(p) && !p.textOnly
    ensures Delivered(p) == HeardText(p.chunks, p.played)
  {
    forall i, j | 0 <= i <= j < |p.chunks| ensures p.chunks[i].end <= p.chunks[j].end { Ordered(p, i, j); }
    PlayedIsHeard(p.chunks, p.played);
  }

  function SentSum(chunks: seq<Chunk>): int {
    if chunks == [] then 0 else SentSum(chunks[..|chunks| - 1]) + chunks[|chunks| - 1].sent
  }

  // The chunks' sent counts add up to the item's, less what lies before the first chunk.
  lemma {:induction false} SentAddsUp(p: Item, n: nat)
    requires Tiled(p) && Counted(p) && 0 < n <= |p.chunks|
    ensures SentSum(p.chunks[..n]) == Clamp(p.sent - p.chunks[0].start, 0, p.chunks[n - 1].end - p.chunks[0].start)
    decreases n
  {
    assert p.chunks[..n][..n - 1] == p.chunks[..n - 1];
    Ordered(p, 0, n - 1);
    if n > 1 {
      SentAddsUp(p, n - 1);
      Ordered(p, 0, n - 2);
    } else {
      assert p.chunks[..1][..0] == [];
    }
  }

  // Registered speech tiles the whole generated range from frame zero.
  ghost predicate FromZero(p: Item) { p.chunks != [] ==> p.chunks[0].start == 0 }

  lemma SentExact(p: Item)
    requires ItemOk(p) && FromZero(p)
    ensures SentSum(p.chunks) == p.sent
  {
    assert p.chunks[..|p.chunks|] == p.chunks;
    if p.chunks != [] { SentAddsUp(p, |p.chunks|); }
  }

  // --- eviction --------------------------------------------------------------

  // A turn begins here.
  ghost predicate Boundary(items: seq<Item>, j: nat)
    requires 1 <= j < |items|
  {
    j == 1 || items[j].turn != items[j - 1].turn
  }

  // Trimming removes whole turns, oldest first, none of them the current one,
  // and none more than needed. k is where the kept items begin.
  ghost predicate TrimmedTo(c: Config, items: seq<Item>, current: string, k: nat) {
    && 1 <= k <= |items|
    && (forall i | 1 <= i < k :: items[i].turn != current)
    && (k < |items| ==> Boundary(items, k))
    && (forall j | 1 <= j < k && Boundary(items, j) :: Over(c, Kept(items, j)))
    && (!Over(c, Kept(items, k)) || k == |items| || items[k].turn == current)
  }

  lemma {:induction false} TrimPointOk(c: Config, items: seq<Item>, current: string, k: nat)
    requires 1 <= k <= |items| && (k < |items| ==> Boundary(items, k))
    requires forall i | 1 <= i < k :: items[i].turn != current
    requires forall j | 1 <= j < k && Boundary(items, j) :: Over(c, Kept(items, j))
    ensures TrimmedTo(c, items, current, TrimPoint(c, items, current, k))
    decreases |items| - k
  {
    if Over(c, Kept(items, k)) && k < |items| && items[k].turn != current {
      var m := GroupEnd(items, items[k].turn, k);
      assert forall j | k < j < m :: !Boundary(items, j);
      TrimPointOk(c, items, current, m);
    }
  }

  lemma TrimIsSuffix(c: Config, items: seq<Item>, current: string) returns (k: nat)
    requires items != []
    ensures TrimmedTo(c, items, current, k) && Trim(c, items, current) == Kept(items, k)
  {
    TrimPointOk(c, items, current, 1);
    k := TrimPoint(c, items, current, 1);
  }

  lemma TrimHistory(c: Config, items: seq<Item>, current: string)
    requires HistoryOk(items)
    ensures HistoryOk(Trim(c, items, current))
  {
    var k := TrimIsSuffix(c, items, current);
  }

  // --- all operations --------------------------------------------------------

  // No discipline is assumed: whatever operations are called in whatever order,
  // every item stays sound.
  lemma ApplyHistory(c: Config, items: seq<Item>, op: Op)
    requires HistoryOk(items)
    ensures HistoryOk(Apply(c, items, op))
  {
    hide ItemOk, Trim, Complete, Finalized, Marked, Progressed, WithText, WithChunk;
    match op
    case CommitUserOp(id, turn, text) =>
      assert ItemOk(UserItem(id, turn, text)) by { NewItemsOk(id, turn, text, "", false); }
      TrimHistory(c, items + [UserItem(id, turn, text)], turn);
    case BeginAssistantOp(id, turn, gen, textOnly) =>
      assert ItemOk(AssistantItem(id, turn, gen, textOnly)) by { NewItemsOk(id, turn, [], gen, textOnly); }
      TrimHistory(c, items + [AssistantItem(id, turn, gen, textOnly)], turn);
    case AppendOp(gen, text, sent) => AppendHistory(c, items, gen, text, sent);
    case AddChunkOp(gen, sequence, text, start, end) => AddChunkHistory(c, items, gen, sequence, text, start, end);
    case ProgressOp(gen, sent, played) =>
      if PendingAt(items, gen) { ProgressedOk(items[FindAssistant(items, gen, 0)], sent, played); }
    case DoneOp(gen, audio) =>
      if PendingAt(items, gen) { MarkedOk(items[FindAssistant(items, gen, 0)], audio); }
    case FinalizeOp(gen) =>
      if PendingAt(items, gen) { FinalizedOk(items[FindAssistant(items, gen, 0)]); }
  }

  lemma NewItemsOk(id: string, turn: string, text: Text, gen: string, textOnly: bool)
    ensures ItemOk(UserItem(id, turn, text)) && ItemOk(AssistantItem(id, turn, gen, textOnly))
  {}

  lemma AppendHistory(c: Config, items: seq<Item>, gen: string, text: Text, sent: bool)
    requires HistoryOk(items)
    ensures HistoryOk(Append(c, items, gen, text, sent).0)
  {
    hide ItemOk, Trim, WithText;
    var k := FindAssistant(items, gen, 0);
    if PendingAt(items, gen) {
      WithTextOk(c, items[k], text, sent);
      TrimHistory(c, items[k := WithText(c, items[k], text, sent).0], WithText(c, items[k], text, sent).0.turn);
    }
  }

  lemma AddChunkHistory(c: Config, items: seq<Item>, gen: string, sequence: int, text: Text, start: int, end: int)
    requires HistoryOk(items)
    ensures HistoryOk(AddChunk(c, items, gen, sequence, text, start, end).0)
  {
    hide ItemOk, Trim, WithChunk;
    var k := FindAssistant(items, gen, 0);
    if PendingAt(items, gen) {
      var q := WithChunk(c, items[k], sequence, text, start, end).0;
      WithChunkOk(c, items[k], sequence, text, start, end);
      TrimHistory(c, items[k := q], q.turn);
    }
  }

  lemma {:induction false} RunHistory(c: Config, items: seq<Item>, ops: seq<Op>)
    requires HistoryOk(items)
    ensures HistoryOk(Run(c, items, ops))
    decreases |ops|
  {
    if ops != [] {
      ApplyHistory(c, items, ops[0]);
      RunHistory(c, Apply(c, items, ops[0]), ops[1..]);
    }
  }

  // --- how a store evolves ---------------------------------------------------

  // An item keeps its identity; once settled it never changes again, and while
  // pending its text and its counts only grow.
  ghost predicate Grows(p: Item, q: Item) {
    && q.id == p.id && q.role == p.role && q.turn == p.turn && q.generation == p.generation && q.textOnly == p.textOnly
    && (p.status != Pending ==> q == p)
    && p.content <= q.content && p.sentText <= q.sentText
    && p.sent <= q.sent && p.played <= q.played && |p.chunks| <= |q.chunks|
    && (forall i | 0 <= i < |p.chunks| ::
          && q.chunks[i].text == p.chunks[i].text && q.chunks[i].start == p.chunks[i].start
          && q.chunks[i].end == p.chunks[i].end
          && (p.chunks[i].played ==> q.chunks[i].played))
  }

  // The system item stays first; items from k on are still there, in order, and
  // new ones follow.
  ghost predicate EvolvesFrom(was: seq<Item>, now: seq<Item>, k: nat) {
    && 1 <= k <= |was| && now != [] && now[0] == was[0]
    && |now| >= 1 + |was| - k
    && forall i | k <= i < |was| :: Grows(was[i], now[1 + i - k])
  }

  lemma GrowsTwice(p: Item, q: Item, r: Item)
    requires Grows(p, q) && Grows(q, r)
    ensures Grows(p, r)
  {}

  lemma EvolvesTwice(a: seq<Item>, b: seq<Item>, d: seq<Item>, j: nat, k: nat)
    requires EvolvesFrom(a, b, j) && EvolvesFrom(b, d, k)
    ensures EvolvesFrom(a, d, Min(|a|, j + k - 1))
  {
    var m := Min(|a|, j + k - 1);
    forall i | m <= i < |a| ensures Grows(a[i], d[1 + i - m]) {
      assert Grows(a[i], b[1 + i - j]);
      assert Grows(b[1 + i - j], d[1 + (1 + i - j) - k]);
      GrowsTwice(a[i], b[1 + i - j], d[1 + i - m]);
    }
  }

  lemma TrimEvolves(c: Config, was: seq<Item>, now: seq<Item>, current: string) returns (k: nat)
    requires EvolvesFrom(was, now, 1)
    ensures EvolvesFrom(was, Trim(c, now, current), k)
  {
    var n := TrimIsSuffix(c, now, current);
    k := Min(n, |was|);
    var kept := Kept(now, n);
    assert kept == Trim(c, now, current);
    hide Grows, Trim, TrimmedTo;
    forall i | k <= i < |was| ensures Grows(was[i], kept[1 + i - k]) {
      assert Grows(was[i], now[1 + i - 1]);
      assert kept[1 + i - k] == now[i];
    }
  }

  lemma ProgressedGrows(p: Item, sent: int, played: int)
    requires ItemOk(p) && p.status == Pending
    ensures Grows(p, Progressed(p, sent, played))
  {}

  lemma WithTextGrows(c: Config, p: Item, text: Text, sent: bool)
    requires p.status == Pending
    ensures Grows(p, WithText(c, p, text, sent).0)
  {}

  lemma WithChunkGrows(c: Config, p: Item, sequence: int, text: Text, start: int, end: int)
    requires p.status == Pending
    ensures Grows(p, WithChunk(c, p, sequence, text, start, end).0)
  {}

  lemma SettlingGrows(p: Item, audio: bool)
    requires p.status == Pending
    ensures Grows(p, Marked(p, audio)) && Grows(p, Finalized(p))
  {
    CompleteKeeps(p);
    CompleteKeeps(p.(audioDone := true));
    CompleteKeeps(p.(llmDone := true));
    hide Complete, Delivered;
  }

  lemma CompleteKeeps(p: Item)
    ensures Complete(p) == p.(status := Complete(p).status)
  {
    hide AllPlayed;
  }

  lemma Same(items: seq<Item>)
    requires items != []
    ensures EvolvesFrom(items, items, 1)
  {}

  lemma UpdateEvolves(items: seq<Item>, k: nat, q: Item)
    requires 0 < k < |items| && Grows(items[k], q)
    ensures EvolvesFrom(items, items[k := q], 1)
  {}

  lemma ExtendEvolves(items: seq<Item>, q: Item)
    requires items != []
    ensures EvolvesFrom(items, items + [q], 1)
  {}

  // Completed, interrupted and cancelled absorb: no later operation of any kind
  // changes such an item; it can only be evicted, oldest turns first.
  lemma ApplyEvolves(c: Config, items: seq<Item>, op: Op) returns (k: nat)
    requires HistoryOk(items) && items[0].role == System
    ensures EvolvesFrom(items, Apply(c, items, op), k)
  {
    hide Grows, EvolvesFrom, ItemOk, Trim, WithText, WithChunk, Progressed, Marked, Finalized;
    k := 1;
    Same(items);
    match op
    case CommitUserOp(id, turn, text) =>
      ExtendEvolves(items, UserItem(id, turn, text));
      if CommitUser(c, items, id, turn, text).1 == Accepted {
        k := TrimEvolves(c, items, items + [UserItem(id, turn, text)], turn);
      }
    case BeginAssistantOp(id, turn, gen, textOnly) =>
      ExtendEvolves(items, AssistantItem(id, turn, gen, textOnly));
      if FindAssistant(items, gen, 0) == |items| {
        k := TrimEvolves(c, items, items + [AssistantItem(id, turn, gen, textOnly)], turn);
      }
    case AppendOp(gen, text, sent) =>
      var j := FindAssistant(items, gen, 0);
      if Append(c, items, gen, text, sent).1 == Accepted {
        WithTextGrows(c, items[j], text, sent);
        UpdateEvolves(items, j, WithText(c, items[j], text, sent).0);
        k := TrimEvolves(c, items, items[j := WithText(c, items[j], text, sent).0],
                         WithText(c, items[j], text, sent).0.turn);
      }
    case AddChunkOp(gen, sequence, text, start, end) =>
      var j := FindAssistant(items, gen, 0);
      if AddChunk(c, items, gen, sequence, text, start, end).1 == Accepted {
        var q := WithChunk(c, items[j], sequence, text, start, end).0;
        WithChunkGrows(c, items[j], sequence, text, start, end);
        UpdateEvolves(items, j, q);
        k := TrimEvolves(c, items, items[j := q], q.turn);
      }
    case ProgressOp(gen, sent, played) =>
      var j := FindAssistant(items, gen, 0);
      if PendingAt(items, gen) {
        ProgressedGrows(items[j], sent, played);
        UpdateEvolves(items, j, Progressed(items[j], sent, played));
      }
    case DoneOp(gen, audio) =>
      var j := FindAssistant(items, gen, 0);
      if PendingAt(items, gen) { SettlingGrows(items[j], audio); UpdateEvolves(items, j, Marked(items[j], audio)); }
    case FinalizeOp(gen) =>
      var j := FindAssistant(items, gen, 0);
      if PendingAt(items, gen) { SettlingGrows(items[j], false); UpdateEvolves(items, j, Finalized(items[j])); }
  }

  lemma {:induction false} RunEvolves(c: Config, items: seq<Item>, ops: seq<Op>) returns (k: nat)
    requires HistoryOk(items) && items[0].role == System
    ensures EvolvesFrom(items, Run(c, items, ops), k)
    decreases |ops|
  {
    if ops == [] {
      k := 1;
    } else {
      var next := Apply(c, items, ops[0]);
      var i := ApplyEvolves(c, items, ops[0]);
      ApplyHistory(c, items, ops[0]);
      var j := RunEvolves(c, next, ops[1..]);
      EvolvesTwice(items, next, Run(c, next, ops[1..]), i, j);
      k := Min(|items|, i + j - 1);
    }
  }
}
