// The store as it is kept: one runtime whose items are changed in place, with
// every lookup, count and window computed by a loop.
module Conversation {
  import opened Arithmetic
  import opened Options
  import opened ConversationModel
  import opened ConversationContext

  lemma KeptFacts(all: seq<Item>, k: nat)
    requires 1 <= k <= |all|
    ensures |Kept(all, k)| == 1 + |all| - k && (k < |all| ==> Kept(all, k)[1] == all[k])
  {}

  lemma KeptTwice(all: seq<Item>, k: nat, n: nat)
    requires 1 <= k <= |all| && 1 <= n <= 1 + |all| - k
    ensures |Kept(all, k)| == 1 + |all| - k && Kept(Kept(all, k), n) == Kept(all, k + n - 1)
  {}

  lemma {:induction false} KeptGroupEnd(all: seq<Item>, k: nat, n: nat)
    requires 1 <= k < |all| && 1 <= n <= 1 + |all| - k
    ensures GroupEnd(Kept(all, k), all[k].turn, n) + k - 1 == GroupEnd(all, all[k].turn, k + n - 1)
    decreases |all| - k - n + 1
  {
    var kept := Kept(all, k);
    if n < |kept| {
      assert kept[n] == all[k + n - 1];
      if kept[n].turn == all[k].turn { KeptGroupEnd(all, k, n + 1); }
    }
  }

  // Evicting the oldest turn of what is kept moves on to the next trim point.
  lemma TrimStep(c: Config, all: seq<Item>, current: string, k: nat)
    requires 1 <= k < |all| && Over(c, Kept(all, k)) && all[k].turn != current
    ensures var kept := Kept(all, k); var n := GroupEnd(kept, kept[1].turn, 1);
            && n > 1 && k + n - 1 <= |all|
            && Kept(kept, n) == Kept(all, k + n - 1)
            && TrimPoint(c, all, current, k) == TrimPoint(c, all, current, k + n - 1)
  {
    hide GroupEnd, Kept;
    KeptFacts(all, k);
    KeptGroupEnd(all, k, 1);
    assert GroupEnd(Kept(all, k), all[k].turn, 1) > 1;
    hide Kept, Over, Size, GroupEnd;
    KeptTwice(all, k, GroupEnd(Kept(all, k), all[k].turn, 1));
  }

  // Evicting one oldest turn at a time, as the loop does.
  function Evict(c: Config, items: seq<Item>, current: string): seq<Item>
    requires items != []
    decreases |items|
  {
    if !Over(c, items) || |items| < 2 || items[1].turn == current then items
    else Evict(c, Kept(items, GroupEnd(items, items[1].turn, 1)), current)
  }

  lemma EvictUnfold(c: Config, items: seq<Item>, current: string)
    requires items != []
    ensures Evict(c, items, current) ==
            if !Over(c, items) || |items| < 2 || items[1].turn == current then items
            else Evict(c, Kept(items, GroupEnd(items, items[1].turn, 1)), current)
  {}

  lemma TrimStops(c: Config, all: seq<Item>, current: string, k: nat)
    requires 1 <= k <= |all| && (!Over(c, Kept(all, k)) || k == |all| || all[k].turn == current)
    ensures TrimPoint(c, all, current, k) == k
  {}

  lemma {:induction false} EvictIsTrim(c: Config, all: seq<Item>, current: string, k: nat)
    requires 1 <= k <= |all|
    ensures Evict(c, Kept(all, k), current) == Kept(all, TrimPoint(c, all, current, k))
    decreases |all| - k
  {
    hide *;
    KeptFacts(all, k);
    EvictUnfold(c, Kept(all, k), current);
    if k == |all| || !Over(c, Kept(all, k)) || all[k].turn == current {
      TrimStops(c, all, current, k);
    } else {
      TrimStep(c, all, current, k);
      EvictIsTrim(c, all, current, k + GroupEnd(Kept(all, k), all[k].turn, 1) - 1);
    }
  }

  lemma GatherEnd(turn: string, group: seq<Message>)
    ensures Gather([], turn, group) == Closed(group)
  {}

  lemma GatherStep(items: seq<Item>, i: nat, turn: string, group: seq<Message>)
    requires i < |items|
    ensures Gather(items[i..], turn, group) ==
            if items[i].turn != turn then Closed(group) + Gather(items[i + 1..], items[i].turn, Extend([], items[i]))
            else Gather(items[i + 1..], turn, Extend(group, items[i]))
  {
    assert items[i..][1..] == items[i + 1..];
  }

  class Runtime {
    const config: Config
    var items: seq<Item>

    constructor (config: Config, systemId: string)
      ensures this.config == config && items == [SystemItem(config, systemId)]
    {
      this.config := config;
      items := [SystemItem(config, systemId)];
    }

    method User(turn: string) returns (k: nat)
      ensures k == FindUser(items, turn, 0)
    {
      k := 0;
      while k < |items|
        invariant k <= |items| && FindUser(items, turn, 0) == FindUser(items, turn, k)
      {
        if items[k].role == Role.User && items[k].turn == turn { return; }
        k := k + 1;
      }
    }

    method Assistant(gen: string) returns (k: nat)
      ensures k == FindAssistant(items, gen, 0)
    {
      k := 0;
      while k < |items|
        invariant k <= |items| && FindAssistant(items, gen, 0) == FindAssistant(items, gen, k)
      {
        if items[k].role == Role.Assistant && items[k].generation == gen { return; }
        k := k + 1;
      }
    }

    method CommitUser(id: string, turn: string, text: Text) returns (outcome: Outcome)
      requires items != []
      modifies this
      ensures (items, outcome) == ConversationModel.CommitUser(config, old(items), id, turn, text)
      ensures items != []
    {
      if config.blank(text) { return Ignored; }
      var k := User(turn);
      if k < |items| { return Ignored; }
      if !config.valid(text) || |text| > config.maxItemBytes { return Limit; }
      items := items + [UserItem(id, turn, text)];
      TrimStore(turn);
      return Accepted;
    }

    method BeginAssistant(id: string, turn: string, gen: string, textOnly: bool)
      requires items != []
      modifies this
      ensures items == ConversationModel.BeginAssistant(config, old(items), id, turn, gen, textOnly)
      ensures items != []
    {
      var k := Assistant(gen);
      if k < |items| { return; }
      items := items + [AssistantItem(id, turn, gen, textOnly)];
      TrimStore(turn);
    }

    method Append(gen: string, text: Text, sent: bool) returns (outcome: Outcome)
      requires items != []
      modifies this
      ensures (items, outcome) == ConversationModel.Append(config, old(items), gen, text, sent)
      ensures items != []
    {
      var k := Assistant(gen);
      if k == |items| || items[k].status != Pending { return NotPending; }
      if !config.valid(text) { return Limit; }
      var p := items[k];
      if sent {
        if |p.sentText| + |text| > config.maxItemBytes { return Limit; }
        p := p.(sentText := p.sentText + text);
      } else {
        if p.llmDone || |p.content| + |text| > config.maxItemBytes { return Limit; }
        p := p.(content := p.content + text);
      }
      items := items[k := p];
      TrimStore(p.turn);
      return Accepted;
    }

    method AddChunk(gen: string, sequence: int, text: Text, start: int, end: int) returns (outcome: Outcome)
      requires items != []
      modifies this
      ensures (items, outcome) == ConversationModel.AddChunk(config, old(items), gen, sequence, text, start, end)
      ensures items != []
    {
      var k := Assistant(gen);
      if k == |items| || items[k].status != Pending || items[k].textOnly { return NotPending; }
      var p := items[k];
      if sequence != |p.chunks| || start < 0 || end <= start || (sequence > 0 && start != p.chunks[sequence - 1].end) {
        return BadRange;
      }
      var bytes := TextBytes(p.chunks);
      if |p.chunks| >= config.maxChunks || |text| + bytes > config.maxItemBytes { return Limit; }
      p := p.(chunks := p.chunks + [Chunk(sequence, text, start, end, 0, false)], generated := end);
      items := items[k := p];
      TrimStore(p.turn);
      return Accepted;
    }

    static method TextBytes(chunks: seq<Chunk>) returns (n: nat)
      ensures n == ChunkBytes(chunks)
    {
      n := 0;
      for i := 0 to |chunks|
        invariant n == ChunkBytes(chunks[..i])
      {
        assert chunks[..i + 1][..i] == chunks[..i];
        n := n + |chunks[i].text|;
      }
      assert chunks[..|chunks|] == chunks;
    }

    method Progress(gen: string, sent: int, played: int)
      modifies this
      ensures items == ConversationModel.Progress(old(items), gen, sent, played)
    {
      var k := Assistant(gen);
      if k == |items| || items[k].status != Pending || items[k].textOnly { return; }
      var p := items[k];
      var s, q := Min(sent, p.generated), played;
      if s > p.sent { p := p.(sent := s); }
      q := Min(q, p.sent);
      if q > p.played { p := p.(played := q); }
      var chunks := p.chunks;
      for i := 0 to |chunks|
        invariant |chunks| == |p.chunks|
        invariant forall j | 0 <= j < i :: chunks[j] == AdvanceChunk(p.chunks[j], p.sent, p.played)
        invariant forall j | i <= j < |chunks| :: chunks[j] == p.chunks[j]
      {
        var c := chunks[i];
        var n := p.sent - c.start;
        if n < 0 { n := 0; }
        if n > c.end - c.start { n := c.end - c.start; }
        if n > c.sent { c := c.(sent := n); }
        if p.sent >= c.end && p.played >= c.end { c := c.(played := true); }
        chunks := chunks[i := c];
      }
      assert chunks == AdvanceChunks(p.chunks, p.sent, p.played);
      var done := Settle(p.(chunks := chunks));
      items := items[k := done];
    }

    method Done(gen: string, audio: bool)
      modifies this
      ensures items == ConversationModel.Done(old(items), gen, audio)
    {
      var k := Assistant(gen);
      if k == |items| || items[k].status != Pending { return; }
      var p := items[k];
      if audio { p := p.(audioDone := true); } else { p := p.(llmDone := true); }
      p := Settle(p);
      items := items[k := p];
    }

    // complete: settle the item once nothing more is generated and all was heard.
    static method Settle(p: Item) returns (q: Item)
      ensures q == Complete(p)
    {
      if !p.llmDone { return p; }
      if p.textOnly {
        return if p.content == p.sentText then p.(status := Completed) else p;
      }
      if !p.audioDone { return p; }
      if |p.chunks| == 0 { return p.(status := Cancelled); }
      for i := 0 to |p.chunks|
        invariant forall j | 0 <= j < i :: p.chunks[j].played
      {
        if !p.chunks[i].played { return p; }
      }
      return p.(status := Completed);
    }

    method Finalize(gen: string)
      modifies this
      ensures items == ConversationModel.Finalize(old(items), gen)
    {
      var k := Assistant(gen);
      if k == |items| || items[k].status != Pending { return; }
      var p := Settle(items[k]);
      if p.status == Pending {
        var text := DeliveredText(p);
        p := p.(status := if text == [] && p.played == 0 then Cancelled else Interrupted);
      }
      items := items[k := p];
    }

    static method DeliveredText(p: Item) returns (text: Text)
      ensures text == Delivered(p)
    {
      if p.textOnly { return p.sentText; }
      text := [];
      for i := 0 to |p.chunks|
        invariant text + PlayedText(p.chunks[i..]) == PlayedText(p.chunks)
      {
        var rest := p.chunks[i..];
        if !rest[0].played { return; }
        assert rest[1..] == p.chunks[i + 1..];
        assert text + (rest[0].text + PlayedText(rest[1..])) == (text + rest[0].text) + PlayedText(rest[1..]);
        text := text + p.chunks[i].text;
      }
    }

    method StoreSize() returns (n: nat)
      ensures n == Size(items)
    {
      n := 0;
      for i := 0 to |items|
        invariant n == Size(items[..i])
      {
        var bytes := TextBytes(items[i].chunks);
        assert items[..i + 1][..i] == items[..i];
        n := n + |items[i].content| + |items[i].sentText| + bytes;
      }
      assert items[..|items|] == items;
    }

    // End of the oldest turn.
    method OldestTurnEnd() returns (n: nat)
      requires |items| > 1
      ensures n == GroupEnd(items, items[1].turn, 1)
    {
      n := 1;
      while n < |items| && items[n].turn == items[1].turn
        invariant 1 <= n <= |items| && GroupEnd(items, items[1].turn, 1) == GroupEnd(items, items[1].turn, n)
      {
        n := n + 1;
      }
    }

    // trim: evict whole oldest exchanges, keeping the system item and the current one.
    method TrimStore(current: string)
      requires items != []
      modifies this`items
      ensures items == Trim(config, old(items), current)
    {
      EvictIsTrim(config, items, current, 1);
      assert Kept(items, 1) == items;
      var over := Exceeded();
      while over
        invariant items != [] && over == Over(config, items)
        invariant Evict(config, items, current) == Evict(config, old(items), current)
        decreases |items|
      {
        if |items| < 2 || items[1].turn == current { return; }
        var n := OldestTurnEnd();
        items := Kept(items, n);
        over := Exceeded();
      }
    }

    method Exceeded() returns (over: bool)
      ensures over == Over(config, items)
    {
      var size := StoreSize();
      return |items| > config.maxItems || size > config.maxBytes;
    }

    // The window: gather exchanges, then take them newest first while both budgets allow.
    method Context(candidate: Text) returns (request: Option<seq<Message>>)
      requires items != [] && ValidConfig(config)
      ensures request == ConversationModel.Context(config, items, candidate)
    {
      if |candidate| > config.maxItemBytes || !config.valid(candidate) { return None; }
      var groups := GatherAll();
      if !config.blank(candidate) { groups := groups + [[Message(Role.User, candidate)]]; }
      assert groups == Groups(config, items[1..], candidate);
      var first := Newest(groups);
      hide Groups, Cut, Gather;
      var messages := Concatenate([Message(System, config.systemPrompt)], groups[first..]);
      return Some(messages);
    }

    static method Concatenate(head: seq<Message>, groups: seq<seq<Message>>) returns (messages: seq<Message>)
      ensures messages == head + Flatten(groups)
    {
      messages := head;
      for i := 0 to |groups|
        invariant messages + Flatten(groups[i..]) == head + Flatten(groups)
      {
        assert groups[i..][1..] == groups[i + 1..];
        assert messages + (groups[i] + Flatten(groups[i + 1..])) == (messages + groups[i]) + Flatten(groups[i + 1..]);
        messages := messages + groups[i];
      }
      assert groups[|groups|..] == [] && messages + [] == messages;
    }

    method GatherAll() returns (groups: seq<seq<Message>>)
      requires items != []
      ensures groups == Gather(items[1..], "", [])
    {
      groups := [];
      var turn, group := "", [];
      hide Gather, Delivered;
      for i := 1 to |items|
        invariant groups + Gather(items[i..], turn, group) == Gather(items[1..], "", [])
      {
        var p := items[i];
        GatherStep(items, i, turn, group);
        if p.turn != turn {
          assert groups + (Closed(group) + Gather(items[i + 1..], p.turn, Extend([], p)))
              == (groups + Closed(group)) + Gather(items[i + 1..], p.turn, Extend([], p));
          if |group| > 0 { groups := groups + [group]; }
          turn, group := p.turn, [];
        }
        if p.role == Role.User && p.status == Committed { group := group + [Message(Role.User, p.content)]; }
        if p.role == Role.Assistant && (p.status == Completed || p.status == Interrupted) && |group| > 0 {
          var text := DeliveredText(p);
          if text != [] { group := group + [Message(Role.Assistant, text)]; }
        }
      }
      assert items[|items|..] == [] && Gather([], turn, group) == Closed(group) by { GatherEnd(turn, group); }
      if |group| > 0 { groups := groups + [group]; }
    }

    method Newest(groups: seq<seq<Message>>) returns (first: nat)
      requires ValidConfig(config)
      ensures first == Cut(config, groups)
    {
      var bytes, count := |config.systemPrompt|, 1;
      first := |groups|;
      while first > 0
        invariant first <= |groups| && bytes == |config.systemPrompt| + Bytes(groups[first..])
        invariant count == 1 + Count(groups[first..]) && Fits(config, groups[first..])
      {
        var i := first - 1;
        assert groups[i..][1..] == groups[first..];
        var n := 0;
        for j := 0 to |groups[i]|
          invariant n == MessageBytes(groups[i][..j])
        {
          assert groups[i][..j + 1][..j] == groups[i][..j];
          n := n + |groups[i][j].content|;
        }
        assert groups[i][..|groups[i]|] == groups[i];
        if bytes + n > config.maxContextBytes || count + |groups[i]| > config.maxContextItems {
          CutIs(config, groups, first);
          return;
        }
        bytes, count, first := bytes + n, count + |groups[i]|, i;
      }
      CutIs(config, groups, 0);
    }
  }
}
