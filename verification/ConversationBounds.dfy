// The store stays within its bounds under the session's discipline: one assistant
// per turn, the previous one settled first, speech registered where it starts.
module ConversationBounds {
  import opened Arithmetic
  import opened ConversationModel
  import opened ConversationHistory

  // A turn is one user item, one assistant item, or a user item and its answer.
  ghost predicate Blocks(items: seq<Item>) {
    forall i, j | 1 <= i < j < |items| && items[i].turn == items[j].turn ::
      j == i + 1 && items[i].role == User && items[j].role == Assistant
  }

  ghost predicate ItemFits(c: Config, p: Item) {
    |p.content| <= c.maxItemBytes && |p.sentText| <= c.maxItemBytes && ChunkBytes(p.chunks) <= c.maxItemBytes
  }

  ghost predicate SystemFirst(c: Config, items: seq<Item>) {
    items != [] && items[0] == SystemItem(c, items[0].id) && forall i | 1 <= i < |items| :: items[i].role != System
  }

  // At most one item is pending, the newest.
  ghost predicate OnePending(items: seq<Item>) { forall i | 0 <= i < |items| - 1 :: items[i].status != Pending }

  ghost predicate OneAnswer(items: seq<Item>) {
    forall i, j | 0 <= i < j < |items| && items[i].role == items[j].role == Assistant ::
      items[i].generation != items[j].generation
  }

  ghost predicate Shape(c: Config, items: seq<Item>) {
    && HistoryOk(items) && SystemFirst(c, items) && Blocks(items) && OnePending(items) && OneAnswer(items)
    && (forall i | 1 <= i < |items| :: ItemFits(c, items[i]))
    && (forall i | 0 <= i < |items| :: FromZero(items[i]))
  }

  ghost predicate StoreOk(c: Config, items: seq<Item>) { Shape(c, items) && !Over(c, items) }

  predicate FreshTurn(items: seq<Item>, turn: string) { forall i | 1 <= i < |items| :: items[i].turn != turn }

  predicate Settled(items: seq<Item>) { items != [] && items[|items| - 1].status != Pending }

  // The turn is new, or its user item is the newest item.
  predicate Answerable(items: seq<Item>, turn: string) {
    FreshTurn(items, turn) || (|items| > 1 && IsUser(items[|items| - 1], turn))
  }

  predicate Disciplined(items: seq<Item>, op: Op) {
    match op
    case CommitUserOp(_, turn, _) => Settled(items) && (FindUser(items, turn, 0) < |items| || FreshTurn(items, turn))
    case BeginAssistantOp(_, turn, gen, _) =>
      FindAssistant(items, gen, 0) < |items| || (Settled(items) && Answerable(items, turn))
    case AddChunkOp(gen, _, _, start, _) =>
      PendingAt(items, gen) ==> start == items[FindAssistant(items, gen, 0)].generated
    case _ => true
  }

  predicate DisciplinedRun(c: Config, items: seq<Item>, ops: seq<Op>)
    requires items != []
    decreases |ops|
  {
    ops == [] || (Disciplined(items, ops[0]) && DisciplinedRun(c, Apply(c, items, ops[0]), ops[1..]))
  }

  // --- trimming --------------------------------------------------------------

  lemma OneSize(p: Item)
    ensures Size([p]) == ItemBytes(p)
  {
    assert [p][..0] == [];
  }

  lemma TwoSize(p: Item, q: Item)
    ensures Size([p, q]) == ItemBytes(p) + ItemBytes(q)
  {
    assert [p, q][..1] == [p];
    OneSize(p);
  }

  lemma ThreeSize(p: Item, q: Item, r: Item)
    ensures Size([p, q, r]) == ItemBytes(p) + ItemBytes(q) + ItemBytes(r)
  {
    assert [p, q, r][..2] == [p, q];
    TwoSize(p, q);
  }

  // The system item and one exchange always fit: a user item takes one item
  // budget, an answer at most three.
  lemma ExchangeFits(c: Config, items: seq<Item>, k: nat)
    requires ValidConfig(c) && Shape(c, items) && 1 <= k < |items| && items[k].turn == items[|items| - 1].turn
    ensures !Over(c, Kept(items, k))
  {
    var n := |items|;
    assert k < n - 1 ==> k == n - 2 && items[k].role == User;
    assert ItemBytes(items[0]) == |c.systemPrompt|;
    assert ItemFits(c, items[k]) && ItemFits(c, items[n - 1]);
    hide Shape;
    if k == n - 1 {
      assert Kept(items, k) == [items[0], items[k]];
      TwoSize(items[0], items[k]);
    } else {
      assert Kept(items, k) == [items[0], items[k], items[k + 1]];
      ThreeSize(items[0], items[k], items[k + 1]);
    }
  }

  lemma KeptShape(c: Config, items: seq<Item>, k: nat)
    requires Shape(c, items) && 1 <= k <= |items|
    ensures Shape(c, Kept(items, k))
  {
    var kept := Kept(items, k);
    forall i | 1 <= i < |kept| ensures kept[i] == items[i + k - 1] {}
    hide ItemOk, FromZero, ItemFits;
  }

  // Eviction brings the store back within its bounds without touching the
  // current exchange.
  lemma TrimBounded(c: Config, items: seq<Item>, current: string)
    requires ValidConfig(c) && Shape(c, items) && |items| > 1 && items[|items| - 1].turn == current
    ensures StoreOk(c, Trim(c, items, current))
    ensures |Trim(c, items, current)| > 1
    ensures Trim(c, items, current)[|Trim(c, items, current)| - 1] == items[|items| - 1]
  {
    var k := TrimIsSuffix(c, items, current);
    KeptShape(c, items, k);
    if Over(c, Kept(items, k)) { ExchangeFits(c, items, k); }
  }

  // --- operations ------------------------------------------------------------

  lemma PendingIsLast(c: Config, items: seq<Item>, gen: string)
    requires Shape(c, items) && PendingAt(items, gen)
    ensures FindAssistant(items, gen, 0) == |items| - 1 && |items| > 1
  {}

  lemma AddShape(c: Config, items: seq<Item>, p: Item)
    requires Shape(c, items) && Settled(items)
    requires ItemOk(p) && ItemFits(c, p) && FromZero(p) && p.role != System
    requires FreshTurn(items, p.turn) || (p.role == Assistant && Answerable(items, p.turn))
    requires p.role == Assistant ==> FindAssistant(items, p.generation, 0) == |items|
    ensures Shape(c, items + [p])
  {
    AddBlocks(items, p);
    AddPending(items, p);
    AddAnswer(items, p);
    hide ItemOk, FromZero, ItemFits, Blocks, Answerable, FreshTurn, OnePending, OneAnswer;
  }

  lemma AddPending(items: seq<Item>, p: Item)
    requires OnePending(items) && Settled(items)
    ensures OnePending(items + [p])
  {
  }

  lemma AddAnswer(items: seq<Item>, p: Item)
    requires OneAnswer(items) && (p.role == Assistant ==> FindAssistant(items, p.generation, 0) == |items|)
    ensures OneAnswer(items + [p])
  {
  }

  lemma AddBlocks(items: seq<Item>, p: Item)
    requires items != [] && Blocks(items)
    requires FreshTurn(items, p.turn) || (p.role == Assistant && Answerable(items, p.turn))
    ensures Blocks(items + [p])
  {
    var all, n := items + [p], |items| - 1;
    assert forall k | 1 <= k < n && items[k].turn == items[n].turn :: items[n].role == Assistant;
    forall i, j | 1 <= i < j < |all| && all[i].turn == all[j].turn
      ensures j == i + 1 && all[i].role == User && all[j].role == Assistant
    {
      if j == |items| { assert items[i].turn == items[n].turn && IsUser(items[n], p.turn); }
    }
  }

  // Changing the newest item within its turn and generation.
  lemma UpdateShape(c: Config, items: seq<Item>, q: Item)
    requires Shape(c, items) && |items| > 1
    requires ItemOk(q) && ItemFits(c, q) && FromZero(q)
    requires var p := items[|items| - 1]; q.role == p.role && q.turn == p.turn && q.generation == p.generation
    ensures Shape(c, items[|items| - 1 := q])
  {
    hide ItemOk, FromZero, ItemFits;
  }

  lemma {:induction false} AdvanceBytes(chunks: seq<Chunk>, sent: int, played: int)
    ensures ChunkBytes(AdvanceChunks(chunks, sent, played)) == ChunkBytes(chunks)
    decreases |chunks|
  {
    if chunks != [] {
      var n := |chunks| - 1;
      assert AdvanceChunks(chunks, sent, played)[..n] == AdvanceChunks(chunks[..n], sent, played);
      AdvanceBytes(chunks[..n], sent, played);
    }
  }

  lemma ProgressedFits(c: Config, p: Item, sent: int, played: int)
    requires ItemFits(c, p) && FromZero(p)
    ensures var q := Progressed(p, sent, played);
            ItemFits(c, q) && FromZero(q) && q.role == p.role && q.turn == p.turn && q.generation == p.generation
  {
    var s := Max(p.sent, Min(sent, p.generated));
    AdvanceBytes(p.chunks, s, Max(p.played, Min(played, s)));
  }

  lemma ProgressBounded(c: Config, items: seq<Item>, gen: string, sent: int, played: int)
    requires ValidConfig(c) && StoreOk(c, items)
    ensures StoreOk(c, Progress(items, gen, sent, played))
  {
    if Progress(items, gen, sent, played) != items {
      PendingIsLast(c, items, gen);
      var p := items[|items| - 1];
      ProgressedOk(p, sent, played);
      ProgressedFits(c, p, sent, played);
      UpdateShape(c, items, Progressed(p, sent, played));
      var s := Max(p.sent, Min(sent, p.generated));
      AdvanceBytes(p.chunks, s, Max(p.played, Min(played, s)));
      SameSize(items, Progressed(p, sent, played));
    }
  }

  lemma SameSize(items: seq<Item>, q: Item)
    requires items != [] && ItemBytes(q) == ItemBytes(items[|items| - 1])
    ensures Size(items[|items| - 1 := q]) == Size(items)
  {
    assert items[|items| - 1 := q][..|items| - 1] == items[..|items| - 1];
  }

  // Settling changes flags of the newest item only.
  lemma FlagsBounded(c: Config, items: seq<Item>, q: Item)
    requires StoreOk(c, items) && |items| > 1 && ItemOk(q)
    requires var p := items[|items| - 1]; q == p.(status := q.status, llmDone := q.llmDone, audioDone := q.audioDone)
    ensures StoreOk(c, items[|items| - 1 := q])
  {
    assert ItemFits(c, q) && FromZero(q) by { assert ItemFits(c, items[|items| - 1]) && FromZero(items[|items| - 1]); }
    SameSize(items, q);
    UpdateShape(c, items, q);
  }

  lemma DoneBounded(c: Config, items: seq<Item>, gen: string, audio: bool)
    requires ValidConfig(c) && StoreOk(c, items)
    ensures StoreOk(c, Done(items, gen, audio))
  {
    if PendingAt(items, gen) {
      PendingIsLast(c, items, gen);
      MarkedOk(items[|items| - 1], audio);
      FlagsBounded(c, items, Marked(items[|items| - 1], audio));
    }
  }

  lemma FinalizeBounded(c: Config, items: seq<Item>, gen: string)
    requires ValidConfig(c) && StoreOk(c, items)
    ensures StoreOk(c, Finalize(items, gen))
  {
    if PendingAt(items, gen) {
      PendingIsLast(c, items, gen);
      FinalizedOk(items[|items| - 1]);
      FlagsBounded(c, items, Finalized(items[|items| - 1]));
    }
  }

  lemma AppendBounded(c: Config, items: seq<Item>, gen: string, text: Text, sent: bool)
    requires ValidConfig(c) && StoreOk(c, items)
    ensures StoreOk(c, Append(c, items, gen, text, sent).0)
  {
    hide Size;
    if Append(c, items, gen, text, sent).1 == Accepted {
      PendingIsLast(c, items, gen);
      var p := items[|items| - 1];
      WithTextOk(c, p, text, sent);
      var q := WithText(c, p, text, sent).0;
      UpdateShape(c, items, q);
      TrimBounded(c, items[|items| - 1 := q], q.turn);
    }
  }

  lemma AddChunkBounded(c: Config, items: seq<Item>, gen: string, sequence: int, text: Text, start: int, end: int)
    requires ValidConfig(c) && StoreOk(c, items)
    requires PendingAt(items, gen) ==> start == items[FindAssistant(items, gen, 0)].generated
    ensures StoreOk(c, AddChunk(c, items, gen, sequence, text, start, end).0)
  {
    hide Counted;
    if AddChunk(c, items, gen, sequence, text, start, end).1 == Accepted {
      PendingIsLast(c, items, gen);
      var p := items[|items| - 1];
      WithChunkOk(c, p, sequence, text, start, end);
      var q := WithChunk(c, p, sequence, text, start, end).0;
      assert q.chunks[..|p.chunks|] == p.chunks;
      UpdateShape(c, items, q);
      TrimBounded(c, items[|items| - 1 := q], q.turn);
    }
  }

  lemma NewFits(c: Config, id: string, turn: string, text: Text, gen: string, textOnly: bool)
    requires |text| <= c.maxItemBytes && c.maxItemBytes >= 0
    ensures ItemFits(c, UserItem(id, turn, text)) && FromZero(UserItem(id, turn, text))
    ensures ItemFits(c, AssistantItem(id, turn, gen, textOnly)) && FromZero(AssistantItem(id, turn, gen, textOnly))
  {}

  // Items within MaxItems, text within MaxBytes, after every disciplined operation.
  lemma ApplyBounded(c: Config, items: seq<Item>, op: Op)
    requires ValidConfig(c) && StoreOk(c, items) && Disciplined(items, op)
    ensures StoreOk(c, Apply(c, items, op))
  {
    match op
    case CommitUserOp(id, turn, text) =>
      if CommitUser(c, items, id, turn, text).1 == Accepted {
        NewItemsOk(id, turn, text, "", false);
        NewFits(c, id, turn, text, "", false);
        hide Shape, ItemOk, ItemFits;
        AddShape(c, items, UserItem(id, turn, text));
        TrimBounded(c, items + [UserItem(id, turn, text)], turn);
      }
    case BeginAssistantOp(id, turn, gen, textOnly) =>
      if FindAssistant(items, gen, 0) == |items| {
        NewItemsOk(id, turn, [], gen, textOnly);
        NewFits(c, id, turn, [], gen, textOnly);
        hide Shape, ItemOk, ItemFits;
        AddShape(c, items, AssistantItem(id, turn, gen, textOnly));
        TrimBounded(c, items + [AssistantItem(id, turn, gen, textOnly)], turn);
      }
    case AppendOp(gen, text, sent) => AppendBounded(c, items, gen, text, sent);
    case AddChunkOp(gen, sequence, text, start, end) => AddChunkBounded(c, items, gen, sequence, text, start, end);
    case ProgressOp(gen, sent, played) => ProgressBounded(c, items, gen, sent, played);
    case DoneOp(gen, audio) => DoneBounded(c, items, gen, audio);
    case FinalizeOp(gen) => FinalizeBounded(c, items, gen);
  }

  lemma {:induction false} RunBounded(c: Config, items: seq<Item>, ops: seq<Op>)
    requires ValidConfig(c) && StoreOk(c, items) && DisciplinedRun(c, items, ops)
    ensures StoreOk(c, Run(c, items, ops))
    decreases |ops|
  {
    if ops != [] {
      ApplyBounded(c, items, ops[0]);
      RunBounded(c, Apply(c, items, ops[0]), ops[1..]);
    }
  }

  lemma FreshStoreOk(c: Config, id: string)
    requires WithoutByteBound(c)
    ensures StoreOk(c, [SystemItem(c, id)])
  {
    OneSize(SystemItem(c, id));
  }

  // --- the byte bound is exact -----------------------------------------------

  // The operations of one exchange that fills every budget of its two items.
  function FullExchange(text: Text): seq<Op> {
    [CommitUserOp("u", "t", text), BeginAssistantOp("a", "t", "g", false), AddChunkOp("g", 0, text, 0, 1),
     AppendOp("g", text, false), AppendOp("g", text, true)]
  }

  lemma CurrentStays(c: Config, items: seq<Item>, current: string)
    requires |items| > 1 && items[1].turn == current
    ensures Trim(c, items, current) == items
  {}

  lemma OneStep(c: Config, items: seq<Item>, ops: seq<Op>, k: nat)
    requires items != [] && k < |ops|
    ensures Run(c, items, ops[k..]) == Run(c, Apply(c, items, ops[k]), ops[k + 1..])
    ensures DisciplinedRun(c, items, ops[k..])
            <==> Disciplined(items, ops[k]) && DisciplinedRun(c, Apply(c, items, ops[k]), ops[k + 1..])
  {
    assert ops[k..][1..] == ops[k + 1..];
  }

  lemma UserStep(c: Config, s: Item, text: Text)
    requires s == SystemItem(c, "s") && c.valid(text) && !c.blank(text) && |text| == c.maxItemBytes
    ensures var op := CommitUserOp("u", "t", text);
            Disciplined([s], op) && Apply(c, [s], op) == [s, UserItem("u", "t", text)]
  {
    assert [s] + [UserItem("u", "t", text)] == [s, UserItem("u", "t", text)];
    CurrentStays(c, [s, UserItem("u", "t", text)], "t");
  }

  lemma BeginStep(c: Config, s: Item, u: Item)
    requires s == SystemItem(c, "s") && u.role == User && u.turn == "t" && u.status == Committed
    ensures var op := BeginAssistantOp("a", "t", "g", false);
            Disciplined([s, u], op) && Apply(c, [s, u], op) == [s, u, AssistantItem("a", "t", "g", false)]
  {
    assert FindAssistant([s, u], "g", 0) == FindAssistant([s, u], "g", 1) == FindAssistant([s, u], "g", 2);
    assert [s, u] + [AssistantItem("a", "t", "g", false)] == [s, u, AssistantItem("a", "t", "g", false)];
    CurrentStays(c, [s, u, AssistantItem("a", "t", "g", false)], "t");
  }

  // An accepted change of the pending answer stays in place.
  lemma AnswerStep(c: Config, s: Item, u: Item, p: Item, q: Item)
    requires s.role == System && u.role == User && u.turn == "t" && IsAssistant(p, "g") && p.status == Pending
             && q.turn == "t"
    ensures FindAssistant([s, u, p], "g", 0) == 2 && PendingAt([s, u, p], "g")
    ensures Trim(c, [s, u, p][2 := q], q.turn) == [s, u, q]
  {
    assert FindAssistant([s, u, p], "g", 0) == FindAssistant([s, u, p], "g", 1) == FindAssistant([s, u, p], "g", 2);
    assert [s, u, p][2 := q] == [s, u, q];
    CurrentStays(c, [s, u, q], "t");
  }

  lemma FullAnswer(c: Config, s: Item, u: Item, text: Text) returns (a: Item)
    requires s.role == System && u.role == User && u.turn == "t"
    requires WithoutByteBound(c) && c.valid(text) && |text| == c.maxItemBytes
    ensures ItemBytes(a) == 3 * c.maxItemBytes
    ensures var ops := FullExchange(text); var items := [s, u, AssistantItem("a", "t", "g", false)];
            DisciplinedRun(c, items, ops[2..]) && Run(c, items, ops[2..]) == [s, u, a]
  {
    hide Trim, FindAssistant, Finalized, Progressed;
    var ops := FullExchange(text);
    var p := AssistantItem("a", "t", "g", false);
    var p1 := p.(chunks := [Chunk(0, text, 0, 1, 0, false)], generated := 1);
    var p2 := p1.(content := text);
    a := p2.(sentText := text);
    assert ChunkBytes(p1.chunks) == |text| by { assert p1.chunks[..0] == []; }
    assert [] + text == text && [] + p1.chunks == p1.chunks;
    AnswerStep(c, s, u, p, p1);
    assert Apply(c, [s, u, p], ops[2]) == [s, u, p1];
    AnswerStep(c, s, u, p1, p2);
    assert Apply(c, [s, u, p1], ops[3]) == [s, u, p2];
    AnswerStep(c, s, u, p2, a);
    assert Apply(c, [s, u, p2], ops[4]) == [s, u, a];
    assert Disciplined([s, u, p], ops[2]);
    hide Apply, FindAssistant, WithoutByteBound;
    OneStep(c, [s, u, p], ops, 2);
    OneStep(c, [s, u, p1], ops, 3);
    OneStep(c, [s, u, p2], ops, 4);
  }

  // The store one full exchange leaves behind, whatever the byte bound.
  lemma FullExchangeRun(c: Config, text: Text)
    requires WithoutByteBound(c) && c.valid(text) && !c.blank(text) && |text| == c.maxItemBytes
    ensures DisciplinedRun(c, [SystemItem(c, "s")], FullExchange(text))
    ensures Size(Run(c, [SystemItem(c, "s")], FullExchange(text))) == 4 * c.maxItemBytes + |c.systemPrompt|
  {
    var s, u, ops := SystemItem(c, "s"), UserItem("u", "t", text), FullExchange(text);
    UserStep(c, s, text);
    BeginStep(c, s, u);
    var a := FullAnswer(c, s, u, text);
    assert ops[0..] == ops;
    OneStep(c, [s], ops, 0);
    OneStep(c, [s, u], ops, 1);
    ThreeSize(s, u, a);
  }

  // The validated byte bound is exactly what keeps every disciplined run of a
  // store within MaxBytes.
  lemma ByteBoundExact(c: Config, text: Text)
    requires WithoutByteBound(c) && c.valid(text) && !c.blank(text) && |text| == c.maxItemBytes
    ensures ValidConfig(c) <==>
            forall ops | DisciplinedRun(c, [SystemItem(c, "s")], ops) ::
              Size(Run(c, [SystemItem(c, "s")], ops)) <= c.maxBytes
  {
    FreshStoreOk(c, "s");
    if ValidConfig(c) {
      forall ops | DisciplinedRun(c, [SystemItem(c, "s")], ops)
        ensures Size(Run(c, [SystemItem(c, "s")], ops)) <= c.maxBytes {
        RunBounded(c, [SystemItem(c, "s")], ops);
      }
    } else {
      FullExchangeRun(c, text);
    }
  }
}
