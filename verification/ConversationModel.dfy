// The bounded conversation store as a function of its operations. Text is a
// sequence of UTF-8 bytes, so lengths are byte lengths; which byte sequences are
// valid and which are blank is part of the configuration.
module ConversationModel {
  import opened Arithmetic
  import opened Options

  type Text = seq<bv8>

  datatype Role = User | Assistant | System

  datatype Status = Pending | Committed | Completed | Interrupted | Cancelled

  // A speech chunk of an assistant item: its text and its range of source frames.
  datatype Chunk = Chunk(sequence: int, text: Text, start: int, end: int, sent: int, played: bool)

  // content is what was generated, sentText what was written to the client.
  datatype Item = Item(id: string, role: Role, content: Text, sentText: Text, turn: string, generation: string,
                       status: Status, textOnly: bool, llmDone: bool, audioDone: bool, chunks: seq<Chunk>,
                       generated: int, sent: int, played: int)

  datatype Config = Config(valid: Text -> bool, blank: Text -> bool, systemPrompt: Text, maxItems: int, maxBytes: int,
                           maxItemBytes: int, maxContextItems: int, maxContextBytes: int, maxChunks: int)

  datatype Message = Message(role: Role, content: Text)

  datatype Outcome = Accepted | Ignored | Limit | NotPending | BadRange

  // What Validate asks, the store's byte bound aside.
  predicate WithoutByteBound(c: Config) {
    && c.valid([]) && c.blank([]) && c.valid(c.systemPrompt)
    && 3 <= c.maxItems <= 1000 && 2 <= c.maxContextItems <= c.maxItems
    && 1 <= c.maxItemBytes <= 0x10_0000 && c.maxBytes <= 0x100_0000
    && |c.systemPrompt| + c.maxItemBytes <= c.maxContextBytes <= c.maxBytes
    && 1 <= c.maxChunks <= 4096
  }

  predicate ValidConfig(c: Config) { WithoutByteBound(c) && 4 * c.maxItemBytes + |c.systemPrompt| <= c.maxBytes }

  function SystemItem(c: Config, id: string): Item {
    Item(id, System, c.systemPrompt, [], "", "", Committed, false, false, false, [], 0, 0, 0)
  }

  function UserItem(id: string, turn: string, text: Text): Item {
    Item(id, User, text, [], turn, "", Committed, false, false, false, [], 0, 0, 0)
  }

  function AssistantItem(id: string, turn: string, gen: string, textOnly: bool): Item {
    Item(id, Assistant, [], [], turn, gen, Pending, textOnly, false, false, [], 0, 0, 0)
  }

  // --- lookups ---------------------------------------------------------------

  predicate IsUser(p: Item, turn: string) { p.role == User && p.turn == turn }

  predicate IsAssistant(p: Item, gen: string) { p.role == Assistant && p.generation == gen }

  // Index of the first match at or after `from`, or the length.
  function FindUser(items: seq<Item>, turn: string, from: nat): (k: nat)
    requires from <= |items|
    ensures from <= k <= |items| && (k < |items| ==> IsUser(items[k], turn))
    ensures forall i | from <= i < k :: !IsUser(items[i], turn)
    decreases |items| - from
  {
    if from == |items| || IsUser(items[from], turn) then from else FindUser(items, turn, from + 1)
  }

  function FindAssistant(items: seq<Item>, gen: string, from: nat): (k: nat)
    requires from <= |items|
    ensures from <= k <= |items| && (k < |items| ==> IsAssistant(items[k], gen))
    ensures forall i | from <= i < k :: !IsAssistant(items[i], gen)
    decreases |items| - from
  {
    if from == |items| || IsAssistant(items[from], gen) then from else FindAssistant(items, gen, from + 1)
  }

  predicate PendingAt(items: seq<Item>, gen: string) {
    var k := FindAssistant(items, gen, 0);
    k < |items| && items[k].status == Pending
  }

  // --- sizes and eviction ----------------------------------------------------

  function ChunkBytes(chunks: seq<Chunk>): nat {
    if chunks == [] then 0 else ChunkBytes(chunks[..|chunks| - 1]) + |chunks[|chunks| - 1].text|
  }

  function ItemBytes(p: Item): nat { |p.content| + |p.sentText| + ChunkBytes(p.chunks) }

  function Size(items: seq<Item>): nat {
    if items == [] then 0 else Size(items[..|items| - 1]) + ItemBytes(items[|items| - 1])
  }

  predicate Over(c: Config, items: seq<Item>) { |items| > c.maxItems || Size(items) > c.maxBytes }

  // End of the run of items of one turn.
  function GroupEnd(items: seq<Item>, turn: string, n: nat): (m: nat)
    requires n <= |items|
    ensures n <= m <= |items|
    ensures forall i | n <= i < m :: items[i].turn == turn
    ensures m < |items| ==> items[m].turn != turn
    decreases |items| - n
  {
    if n < |items| && items[n].turn == turn then GroupEnd(items, turn, n + 1) else n
  }

  // The system item and everything from k on.
  function Kept(items: seq<Item>, k: nat): seq<Item>
    requires 1 <= k <= |items|
  {
    items[..1] + items[k..]
  }

  // Where the kept items begin: whole oldest turns go while a bound is exceeded
  // and the oldest turn is not the current one.
  function TrimPoint(c: Config, items: seq<Item>, current: string, k: nat): (n: nat)
    requires 1 <= k <= |items|
    ensures k <= n <= |items|
    decreases |items| - k
  {
    if !Over(c, Kept(items, k)) || k == |items| || items[k].turn == current then k
    else TrimPoint(c, items, current, GroupEnd(items, items[k].turn, k))
  }

  function Trim(c: Config, items: seq<Item>, current: string): (kept: seq<Item>)
    requires items != []
    ensures kept != [] && kept[0] == items[0]
  {
    Kept(items, TrimPoint(c, items, current, 1))
  }

  // --- playback and completion -----------------------------------------------

  function Clamp(n: int, lo: int, hi: int): int { if n < lo then lo else if n > hi then hi else n }

  function AdvanceChunk(c: Chunk, sent: int, played: int): Chunk {
    var n := Min(Max(sent - c.start, 0), c.end - c.start);
    c.(sent := Max(c.sent, n), played := c.played || (sent >= c.end && played >= c.end))
  }

  function AdvanceChunks(chunks: seq<Chunk>, sent: int, played: int): seq<Chunk> {
    seq(|chunks|, i requires 0 <= i < |chunks| => AdvanceChunk(chunks[i], sent, played))
  }

  predicate AllPlayed(chunks: seq<Chunk>) { forall i | 0 <= i < |chunks| :: chunks[i].played }

  function Complete(p: Item): Item {
    if !p.llmDone then p
    else if p.textOnly then (if p.content == p.sentText then p.(status := Completed) else p)
    else if !p.audioDone then p
    else if p.chunks == [] then p.(status := Cancelled)
    else if AllPlayed(p.chunks) then p.(status := Completed) else p
  }

  // Sent is clamped to what was generated, played to what was sent, and neither goes back.
  function Progressed(p: Item, sent: int, played: int): Item {
    var s := Max(p.sent, Min(sent, p.generated));
    var q := Max(p.played, Min(played, s));
    Complete(p.(sent := s, played := q, chunks := AdvanceChunks(p.chunks, s, q)))
  }

  function Marked(p: Item, audio: bool): Item {
    Complete(if audio then p.(audioDone := true) else p.(llmDone := true))
  }

  // The text of the chunks up to the first unplayed one.
  function PlayedText(chunks: seq<Chunk>): Text {
    if chunks == [] || !chunks[0].played then [] else chunks[0].text + PlayedText(chunks[1..])
  }

  function Delivered(p: Item): Text { if p.textOnly then p.sentText else PlayedText(p.chunks) }

  function Finalized(p: Item): Item {
    var q := Complete(p);
    if q.status != Pending then q
    else if Delivered(q) == [] && q.played == 0 then q.(status := Cancelled)
    else q.(status := Interrupted)
  }

  // --- operations ------------------------------------------------------------

  function CommitUser(c: Config, items: seq<Item>, id: string, turn: string, text: Text): (r: (seq<Item>, Outcome))
    requires items != []
    ensures r.0 != []
  {
    if c.blank(text) || FindUser(items, turn, 0) < |items| then (items, Ignored)
    else if !c.valid(text) || |text| > c.maxItemBytes then (items, Limit)
    else (Trim(c, items + [UserItem(id, turn, text)], turn), Accepted)
  }

  function BeginAssistant(c: Config, items: seq<Item>, id: string, turn: string, gen: string,
      textOnly: bool): (r: seq<Item>)
    requires items != []
    ensures r != []
  {
    if FindAssistant(items, gen, 0) < |items| then items
    else Trim(c, items + [AssistantItem(id, turn, gen, textOnly)], turn)
  }

  function WithText(c: Config, p: Item, text: Text, sent: bool): (Item, Outcome) {
    if !c.valid(text) then (p, Limit)
    else if sent then
      if |p.sentText| + |text| > c.maxItemBytes then (p, Limit) else (p.(sentText := p.sentText + text), Accepted)
    else
      if p.llmDone || |p.content| + |text| > c.maxItemBytes then (p, Limit)
         else (p.(content := p.content + text), Accepted)
  }

  function Append(c: Config, items: seq<Item>, gen: string, text: Text, sent: bool): (r: (seq<Item>, Outcome))
    requires items != []
    ensures r.0 != []
  {
    if !PendingAt(items, gen) then (items, NotPending)
    else
      var k := FindAssistant(items, gen, 0);
      var (p, outcome) := WithText(c, items[k], text, sent);
      if outcome == Accepted then (Trim(c, items[k := p], p.turn), Accepted) else (items, outcome)
  }

  function WithChunk(c: Config, p: Item, sequence: int, text: Text, start: int, end: int): (Item, Outcome) {
    if p.textOnly then (p, NotPending)
    else if sequence != |p.chunks| || start < 0 || end <= start
            || (sequence > 0 && start != p.chunks[sequence - 1].end) then (p, BadRange)
    else if |p.chunks| >= c.maxChunks || |text| + ChunkBytes(p.chunks) > c.maxItemBytes then (p, Limit)
    else (p.(chunks := p.chunks + [Chunk(sequence, text, start, end, 0, false)], generated := end), Accepted)
  }

  function AddChunk(c: Config, items: seq<Item>, gen: string, sequence: int, text: Text, start: int,
      end: int): (r: (seq<Item>, Outcome))
    requires items != []
    ensures r.0 != []
  {
    if !PendingAt(items, gen) then (items, NotPending)
    else
      var k := FindAssistant(items, gen, 0);
      var (p, outcome) := WithChunk(c, items[k], sequence, text, start, end);
      if outcome == Accepted then (Trim(c, items[k := p], p.turn), Accepted) else (items, outcome)
  }

  function Progress(items: seq<Item>, gen: string, sent: int, played: int): seq<Item> {
    var k := FindAssistant(items, gen, 0);
    if !PendingAt(items, gen) || items[k].textOnly then items else items[k := Progressed(items[k], sent, played)]
  }

  function Done(items: seq<Item>, gen: string, audio: bool): seq<Item> {
    var k := FindAssistant(items, gen, 0);
    if !PendingAt(items, gen) then items else items[k := Marked(items[k], audio)]
  }

  function Finalize(items: seq<Item>, gen: string): seq<Item> {
    var k := FindAssistant(items, gen, 0);
    if !PendingAt(items, gen) then items else items[k := Finalized(items[k])]
  }

  datatype Op =
    | CommitUserOp(id: string, turn: string, text: Text)
    | BeginAssistantOp(id: string, turn: string, gen: string, textOnly: bool)
    | AppendOp(gen: string, text: Text, sent: bool)
    | AddChunkOp(gen: string, sequence: int, text: Text, start: int, end: int)
    | ProgressOp(gen: string, sentFrames: int, playedFrames: int)
    | DoneOp(gen: string, audio: bool)
    | FinalizeOp(gen: string)

  function Apply(c: Config, items: seq<Item>, op: Op): (r: seq<Item>)
    requires items != []
    ensures r != []
  {
    match op
    case CommitUserOp(id, turn, text) => CommitUser(c, items, id, turn, text).0
    case BeginAssistantOp(id, turn, gen, textOnly) => BeginAssistant(c, items, id, turn, gen, textOnly)
    case AppendOp(gen, text, sent) => Append(c, items, gen, text, sent).0
    case AddChunkOp(gen, sequence, text, start, end) => AddChunk(c, items, gen, sequence, text, start, end).0
    case ProgressOp(gen, sent, played) => Progress(items, gen, sent, played)
    case DoneOp(gen, audio) => Done(items, gen, audio)
    case FinalizeOp(gen) => Finalize(items, gen)
  }

  function Run(c: Config, items: seq<Item>, ops: seq<Op>): (r: seq<Item>)
    requires items != []
    ensures r != []
    decreases |ops|
  {
    if ops == [] then items else Run(c, Apply(c, items, ops[0]), ops[1..])
  }

  // --- the request context ---------------------------------------------------

  // What one item adds to the exchange it belongs to.
  function Extend(group: seq<Message>, p: Item): seq<Message> {
    if p.role == User && p.status == Committed then group + [Message(User, p.content)]
    else if p.role == Assistant && (p.status == Completed || p.status == Interrupted) && group != []
            && Delivered(p) != []
    then group + [Message(Assistant, Delivered(p))]
    else group
  }

  function Closed(group: seq<Message>): seq<seq<Message>> { if group == [] then [] else [group] }

  // Exchanges of a list of items, given the turn and the messages already open.
  function Gather(items: seq<Item>, turn: string, group: seq<Message>): seq<seq<Message>>
    decreases |items|
  {
    if items == [] then Closed(group)
    else if items[0].turn != turn then Closed(group) + Gather(items[1..], items[0].turn, Extend([], items[0]))
    else Gather(items[1..], turn, Extend(group, items[0]))
  }

  function Groups(c: Config, items: seq<Item>, candidate: Text): seq<seq<Message>> {
    Gather(items, "", []) + if c.blank(candidate) then [] else [[Message(User, candidate)]]
  }

  function MessageBytes(group: seq<Message>): nat {
    if group == [] then 0 else MessageBytes(group[..|group| - 1]) + |group[|group| - 1].content|
  }

  function Bytes(groups: seq<seq<Message>>): nat {
    if groups == [] then 0 else MessageBytes(groups[0]) + Bytes(groups[1..])
  }

  function Count(groups: seq<seq<Message>>): nat {
    if groups == [] then 0 else |groups[0]| + Count(groups[1..])
  }

  function Flatten(groups: seq<seq<Message>>): seq<Message> {
    if groups == [] then [] else groups[0] + Flatten(groups[1..])
  }

  predicate Fits(c: Config, groups: seq<seq<Message>>) {
    |c.systemPrompt| + Bytes(groups) <= c.maxContextBytes && 1 + Count(groups) <= c.maxContextItems
  }

  // The first exchange from which everything to the end fits both budgets.
  function Cut(c: Config, groups: seq<seq<Message>>): (first: nat)
    ensures first <= |groups|
  {
    if groups == [] || Fits(c, groups) then 0 else 1 + Cut(c, groups[1..])
  }

  function Window(c: Config, items: seq<Item>, candidate: Text): seq<Message>
    requires items != []
  {
    var groups := Groups(c, items[1..], candidate);
    [Message(System, c.systemPrompt)] + Flatten(groups[Cut(c, groups)..])
  }

  function Context(c: Config, items: seq<Item>, candidate: Text): Option<seq<Message>>
    requires items != []
  {
    if |candidate| > c.maxItemBytes || !c.valid(candidate) then None else Some(Window(c, items, candidate))
  }
}
