// Where the text of the history comes from: over any run every item holds exactly
// what was committed, generated, written or spoken for it, in order.
module ConversationText {
  import opened Arithmetic
  import opened ConversationModel
  import opened ConversationHistory

  // What was accepted for one answer: texts of the model, texts written to the client,
  // and texts of speech chunks.
  datatype Record = Record(generated: seq<Text>, written: seq<Text>, spoken: seq<Text>)

  // By generation, and the user's texts by turn.
  datatype Records = Records(answers: map<string, Record>, turns: map<string, Text>)

  function Joined(texts: seq<Text>): Text {
    if texts == [] then [] else Joined(texts[..|texts| - 1]) + texts[|texts| - 1]
  }

  function Of(r: Records, gen: string): Record {
    if gen in r.answers then r.answers[gen] else Record([], [], [])
  }

  predicate Has(items: seq<Item>, gen: string) { FindAssistant(items, gen, 0) < |items| }

  // The answer is still open; a written text fits behind what was written, another
  // one behind what was generated, unless the model is done.
  predicate TakesText(c: Config, items: seq<Item>, gen: string, text: Text, sent: bool) {
    && PendingAt(items, gen) && c.valid(text)
    && var p := items[FindAssistant(items, gen, 0)];
       if sent then |p.sentText| + |text| <= c.maxItemBytes else !p.llmDone && |p.content| + |text| <= c.maxItemBytes
  }

  // The chunk continues the last one of an answer that is spoken, within the limits.
  predicate TakesChunk(c: Config, items: seq<Item>, gen: string, sequence: int, text: Text, start: int, end: int) {
    && PendingAt(items, gen)
    && var p := items[FindAssistant(items, gen, 0)];
       && !p.textOnly && sequence == |p.chunks| && 0 <= start < end
       && (p.chunks != [] ==> start == p.chunks[|p.chunks| - 1].end)
       && |p.chunks| < c.maxChunks && ChunkBytes(p.chunks) + |text| <= c.maxItemBytes
  }

  predicate TakesUser(c: Config, items: seq<Item>, turn: string, text: Text) {
    !c.blank(text) && c.valid(text) && |text| <= c.maxItemBytes && FindUser(items, turn, 0) == |items|
  }

  // What an operation adds to the records.
  function Recorded(c: Config, items: seq<Item>, r: Records, op: Op): Records {
    match op
    case CommitUserOp(_, turn, text) =>
      if TakesUser(c, items, turn, text) then r.(turns := r.turns[turn := text]) else r
    case BeginAssistantOp(_, _, gen, _) =>
      if Has(items, gen) then r else r.(answers := r.answers[gen := Record([], [], [])])
    case AppendOp(gen, text, sent) =>
      if !TakesText(c, items, gen, text, sent) then r
      else if sent then r.(answers := r.answers[gen := Of(r, gen).(written := Of(r, gen).written + [text])])
      else r.(answers := r.answers[gen := Of(r, gen).(generated := Of(r, gen).generated + [text])])
    case AddChunkOp(gen, sequence, text, start, end) =>
      if !TakesChunk(c, items, gen, sequence, text, start, end) then r
      else r.(answers := r.answers[gen := Of(r, gen).(spoken := Of(r, gen).spoken + [text])])
    case _ => r
  }

  function Texts(chunks: seq<Chunk>): seq<Text> { seq(|chunks|, i requires 0 <= i < |chunks| => chunks[i].text) }

  // The item holds what was recorded for it, and nothing else.
  ghost predicate HoldsText(p: Item, r: Records) {
    match p.role
    case System => true
    case User => p.turn in r.turns && p.content == r.turns[p.turn] && p.sentText == [] && p.chunks == []
    case Assistant =>
      && p.generation in r.answers && p.content == Joined(r.answers[p.generation].generated)
      && p.sentText == Joined(r.answers[p.generation].written) && Texts(p.chunks) == r.answers[p.generation].spoken
  }

  // At most one item of a generation and one user item of a turn.
  ghost predicate Unique(items: seq<Item>) {
    && (forall i, j | 0 <= i < j < |items| && items[i].role == items[j].role == Assistant ::
          items[i].generation != items[j].generation)
    && (forall i, j | 0 <= i < j < |items| && items[i].role == items[j].role == User :: items[i].turn != items[j].turn)
  }

  ghost predicate TextOk(items: seq<Item>, r: Records) {
    && items != [] && items[0].role == System && Unique(items)
    && forall i | 0 <= i < |items| :: HoldsText(items[i], r)
  }

  // --- one operation ----------------------------------------------------------

  // An accepted text extends the field it belongs to and no other; a refused one
  // changes nothing.
  lemma AppendExact(c: Config, items: seq<Item>, gen: string, text: Text, sent: bool)
    requires items != []
    ensures var (now, outcome) := Append(c, items, gen, text, sent);
            && (outcome == Accepted <==> TakesText(c, items, gen, text, sent))
            && (outcome != Accepted ==> now == items)
            && (outcome == Accepted ==>
                  var k := FindAssistant(items, gen, 0);
                  var p := items[k];
                  var q := if sent then p.(sentText := p.sentText + text) else p.(content := p.content + text);
                  now == Trim(c, items[k := q], p.turn))
  {
    hide Trim;
  }

  lemma AddChunkExact(c: Config, items: seq<Item>, gen: string, sequence: int, text: Text, start: int, end: int)
    requires items != []
    ensures var (now, outcome) := AddChunk(c, items, gen, sequence, text, start, end);
            && (outcome == Accepted <==> TakesChunk(c, items, gen, sequence, text, start, end))
            && (outcome != Accepted ==> now == items)
            && (outcome == Accepted ==>
                  var k := FindAssistant(items, gen, 0);
                  var p := items[k];
                  now == Trim(c, items[k := p.(generated := end,
                                               chunks := p.chunks + [Chunk(sequence, text, start, end, 0, false)])],
                                                         p.turn))
  {
    hide Trim, ChunkBytes;
  }

  lemma CommitUserExact(c: Config, items: seq<Item>, id: string, turn: string, text: Text)
    requires items != []
    ensures var (now, outcome) := CommitUser(c, items, id, turn, text);
            && (outcome == Accepted <==> TakesUser(c, items, turn, text))
            && var p := Item(id, User, text, [], turn, "", Committed, false, false, false, [], 0, 0, 0);
               now == if outcome == Accepted then Trim(c, items + [p], turn) else items
  {
    hide Trim;
  }

  // A generation has one answer; it begins pending and empty, in text alone or spoken.
  lemma BeginExact(c: Config, items: seq<Item>, id: string, turn: string, gen: string, textOnly: bool)
    requires items != []
    ensures var p := Item(id, Assistant, [], [], turn, gen, Pending, textOnly, false, false, [], 0, 0, 0);
            BeginAssistant(c, items, id, turn, gen, textOnly) ==
            if Has(items, gen) then items else Trim(c, items + [p], turn)
  {
    hide Trim;
  }

  // --- the records over a run -------------------------------------------------

  lemma TrimText(c: Config, items: seq<Item>, current: string, r: Records)
    requires TextOk(items, r)
    ensures TextOk(Trim(c, items, current), r)
  {
    var n := TrimPoint(c, items, current, 1);
    var kept := Kept(items, n);
    assert kept == Trim(c, items, current);
    hide Trim, TrimPoint, HoldsText;
    forall i | 0 <= i < |kept| ensures HoldsText(kept[i], r) && kept[i] == items[if i == 0 then 0 else n + i - 1] {
      assert kept[i] == items[if i == 0 then 0 else n + i - 1];
    }
    forall i, j | 0 <= i < j < |kept| && kept[i].role == kept[j].role == Assistant
      ensures kept[i].generation != kept[j].generation {}
    forall i, j | 0 <= i < j < |kept| && kept[i].role == kept[j].role == User ensures kept[i].turn != kept[j].turn {}
  }

  lemma JoinedAppend(texts: seq<Text>, text: Text)
    ensures Joined(texts + [text]) == Joined(texts) + text
  {
    assert (texts + [text])[..|texts|] == texts;
  }

  lemma TextsAppend(chunks: seq<Chunk>, x: Chunk)
    ensures Texts(chunks + [x]) == Texts(chunks) + [x.text]
  {
  }

  // One answer's record and item change together.
  lemma UpdateText(items: seq<Item>, k: nat, q: Item, r: Records, s: Records)
    requires TextOk(items, r) && k < |items| && items[k].role == Assistant
    requires q.role == Assistant && q.generation == items[k].generation && HoldsText(q, s)
    requires s == r.(answers := s.answers)
    requires forall g | g in r.answers && g != q.generation :: g in s.answers && s.answers[g] == r.answers[g]
    ensures TextOk(items[k := q], s)
  {
    var now := items[k := q];
    forall i | 0 <= i < |now| ensures HoldsText(now[i], s) {
      assert HoldsText(items[i], r);
    }
  }

  lemma AppendText(c: Config, items: seq<Item>, r: Records, gen: string, text: Text, sent: bool)
    requires TextOk(items, r)
    ensures TextOk(Append(c, items, gen, text, sent).0, Recorded(c, items, r, AppendOp(gen, text, sent)))
  {
    AppendExact(c, items, gen, text, sent);
    var s := Recorded(c, items, r, AppendOp(gen, text, sent));
    if TakesText(c, items, gen, text, sent) {
      var k := FindAssistant(items, gen, 0);
      var p := items[k];
      assert HoldsText(p, r);
      var q := if sent then p.(sentText := p.sentText + text) else p.(content := p.content + text);
      JoinedAppend(Of(r, gen).written, text);
      JoinedAppend(Of(r, gen).generated, text);
      hide Joined, Append, TakesText, TextOk;
      UpdateText(items, k, q, r, s);
      TrimText(c, items[k := q], p.turn, s);
    }
  }

  lemma ChunkText(c: Config, items: seq<Item>, r: Records, gen: string, sequence: int, text: Text, start: int, end: int)
    requires TextOk(items, r)
    ensures TextOk(AddChunk(c, items, gen, sequence, text, start, end).0,
                   Recorded(c, items, r, AddChunkOp(gen, sequence, text, start, end)))
  {
    AddChunkExact(c, items, gen, sequence, text, start, end);
    var s := Recorded(c, items, r, AddChunkOp(gen, sequence, text, start, end));
    if TakesChunk(c, items, gen, sequence, text, start, end) {
      var k := FindAssistant(items, gen, 0);
      var p := items[k];
      assert HoldsText(p, r);
      var x := Chunk(sequence, text, start, end, 0, false);
      var q := p.(generated := end, chunks := p.chunks + [x]);
      TextsAppend(p.chunks, x);
      hide Joined, AddChunk, TakesChunk, TextOk, Texts;
      UpdateText(items, k, q, r, s);
      TrimText(c, items[k := q], p.turn, s);
    }
  }

  lemma UserText(c: Config, items: seq<Item>, r: Records, id: string, turn: string, text: Text)
    requires TextOk(items, r)
    ensures TextOk(CommitUser(c, items, id, turn, text).0, Recorded(c, items, r, CommitUserOp(id, turn, text)))
  {
    CommitUserExact(c, items, id, turn, text);
    var s := Recorded(c, items, r, CommitUserOp(id, turn, text));
    if TakesUser(c, items, turn, text) {
      var all := items + [UserItem(id, turn, text)];
      forall i | 0 <= i < |all| ensures HoldsText(all[i], s) {
        if i < |items| {
          assert HoldsText(items[i], r) && all[i] == items[i];
          assert items[i].role == User ==> items[i].turn != turn;
        }
      }
      assert TextOk(all, s);
      hide TextOk, CommitUser, TakesUser;
      TrimText(c, all, turn, s);
    }
  }

  lemma BeginText(c: Config, items: seq<Item>, r: Records, id: string, turn: string, gen: string, textOnly: bool)
    requires TextOk(items, r)
    ensures TextOk(BeginAssistant(c, items, id, turn, gen, textOnly),
                   Recorded(c, items, r, BeginAssistantOp(id, turn, gen, textOnly)))
  {
    hide Trim;
    var s := Recorded(c, items, r, BeginAssistantOp(id, turn, gen, textOnly));
    if !Has(items, gen) {
      var all := items + [AssistantItem(id, turn, gen, textOnly)];
      assert Texts([]) == [];
      forall i | 0 <= i < |all| ensures HoldsText(all[i], s) {
        if i < |items| {
          assert HoldsText(items[i], r) && all[i] == items[i];
          assert items[i].role == Assistant ==> items[i].generation != gen;
        }
      }
      assert TextOk(all, s);
      hide TextOk;
      TrimText(c, all, turn, s);
    }
  }

  // Progress, completion and settling touch no text.
  predicate TextSame(p: Item, q: Item) {
    && q.role == p.role && q.generation == p.generation && q.turn == p.turn && q.content == p.content
    && q.sentText == p.sentText && Texts(q.chunks) == Texts(p.chunks) && |q.chunks| == |p.chunks|
  }

  predicate TextsSame(a: seq<Item>, b: seq<Item>) {
    |b| == |a| && forall i | 0 <= i < |a| :: TextSame(a[i], b[i])
  }

  lemma TextsKeep(a: seq<Item>, b: seq<Item>, r: Records)
    requires TextOk(a, r) && TextsSame(a, b)
    ensures TextOk(b, r)
  {
    forall i | 0 <= i < |b| ensures HoldsText(b[i], r) { assert TextSame(a[i], b[i]) && HoldsText(a[i], r); }
  }

  lemma TextsReflexive(a: seq<Item>)
    ensures TextsSame(a, a)
  {
  }

  lemma TextsTwice(a: seq<Item>, b: seq<Item>, c: seq<Item>)
    requires TextsSame(a, b) && TextsSame(b, c)
    ensures TextsSame(a, c)
  {
    forall i | 0 <= i < |a| ensures TextSame(a[i], c[i]) { assert TextSame(a[i], b[i]) && TextSame(b[i], c[i]); }
  }

  lemma KeptText(p: Item, sent: int, played: int, audio: bool)
    ensures TextSame(p, Progressed(p, sent, played)) && TextSame(p, Marked(p, audio)) && TextSame(p, Finalized(p))
  {
    CompleteKeeps(p);
    CompleteKeeps(p.(audioDone := true));
    CompleteKeeps(p.(llmDone := true));
    var s := Max(p.sent, Min(sent, p.generated));
    var q := Max(p.played, Min(played, s));
    var chunks := AdvanceChunks(p.chunks, s, q);
    assert Texts(chunks) == Texts(p.chunks);
    CompleteKeeps(p.(sent := s, played := q, chunks := chunks));
    hide Complete, Delivered, AdvanceChunks, Texts;
  }

  lemma SettleText(items: seq<Item>, gen: string, sent: int, played: int, audio: bool)
    ensures TextsSame(items, Progress(items, gen, sent, played)) && TextsSame(items, Done(items, gen, audio))
    ensures TextsSame(items, Finalize(items, gen))
  {
    if PendingAt(items, gen) {
      var k := FindAssistant(items, gen, 0);
      KeptText(items[k], sent, played, audio);
      hide Progressed, Marked, Finalized, Texts;
    }
  }

  lemma ApplyText(c: Config, items: seq<Item>, r: Records, op: Op)
    requires TextOk(items, r)
    ensures TextOk(Apply(c, items, op), Recorded(c, items, r, op))
  {
    match op
    case CommitUserOp(id, turn, text) => hide TextOk; UserText(c, items, r, id, turn, text);
    case BeginAssistantOp(id, turn, gen, textOnly) => hide TextOk; BeginText(c, items, r, id, turn, gen, textOnly);
    case AppendOp(gen, text, sent) => hide TextOk; AppendText(c, items, r, gen, text, sent);
    case AddChunkOp(gen, sequence, text, start, end) =>
      hide TextOk;
      ChunkText(c, items, r, gen, sequence, text, start, end);
    case ProgressOp(gen, sent, played) =>
      hide TextOk, TextsSame;
      SettleText(items, gen, sent, played, false);
      TextsKeep(items, Progress(items, gen, sent, played), r);
    case DoneOp(gen, audio) =>
      hide TextOk, TextsSame;
      SettleText(items, gen, 0, 0, audio);
      TextsKeep(items, Done(items, gen, audio), r);
    case FinalizeOp(gen) =>
      hide TextOk, TextsSame;
      SettleText(items, gen, 0, 0, false);
      TextsKeep(items, Finalize(items, gen), r);
  }

  // The records of a run.
  function Recording(c: Config, items: seq<Item>, r: Records, ops: seq<Op>): Records
    requires items != []
    decreases |ops|
  {
    if ops == [] then r else Recording(c, Apply(c, items, ops[0]), Recorded(c, items, r, ops[0]), ops[1..])
  }

  const Nothing := Records(map[], map[])

  lemma {:induction false} RunText(c: Config, items: seq<Item>, r: Records, ops: seq<Op>)
    requires TextOk(items, r)
    ensures TextOk(Run(c, items, ops), Recording(c, items, r, ops))
    decreases |ops|
  {
    assert items != [];
    hide TextOk, Apply, Recorded;
    if ops != [] {
      ApplyText(c, items, r, ops[0]);
      RunText(c, Apply(c, items, ops[0]), Recorded(c, items, r, ops[0]), ops[1..]);
    }
  }

  // Over any run from a fresh store: an answer's written text is what was written of
  // it, its content what was generated, its chunks what was spoken, and a user's text
  // what was committed, each in order, nothing missing and nothing else.
  lemma HistoryIsWhatWasSaid(c: Config, id: string, ops: seq<Op>, i: nat)
    requires i < |Run(c, [SystemItem(c, id)], ops)|
    ensures HoldsText(Run(c, [SystemItem(c, id)], ops)[i], Recording(c, [SystemItem(c, id)], Nothing, ops))
  {
    RunText(c, [SystemItem(c, id)], Nothing, ops);
  }
}
