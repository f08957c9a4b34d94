// What a request says, item by item: every committed user text and every answer
// behind it of which something was heard, in order, cut between exchanges only.
module ConversationExchanges {
  import opened ConversationModel
  import opened ConversationHistory
  import opened ConversationBounds
  import opened ConversationContext

  // What was heard of an answer: what was written out, or the chunks played in full.
  function Heard(p: Item): Text { if p.textOnly then p.sentText else HeardText(p.chunks, p.played) }

  predicate Asks(p: Item) { p.role == User && p.status == Committed }

  // An answer counts once it is settled, was not cancelled, and something was heard.
  predicate Replies(p: Item) {
    p.role == Assistant && (p.status == Completed || p.status == Interrupted) && Heard(p) != []
  }

  // What the item at k adds: an answer needs its user's text in front of it.
  function Said(items: seq<Item>, k: nat): seq<Message>
    requires k < |items|
  {
    if Asks(items[k]) then [Message(User, items[k].content)]
    else if Replies(items[k]) && k > 1 && Asks(items[k - 1]) && items[k - 1].turn == items[k].turn
    then [Message(Assistant, Heard(items[k]))]
    else []
  }

  function AllSaid(items: seq<Item>, k: nat): seq<Message>
    requires k <= |items|
    decreases |items| - k
  {
    if k == |items| then [] else Said(items, k) + AllSaid(items, k + 1)
  }

  lemma HeardIsDelivered(p: Item)
    requires ItemOk(p)
    ensures Delivered(p) == Heard(p)
  {
    if !p.textOnly { DeliveredIsHeard(p); }
    hide ItemOk;
  }

  // The exchange open before item k: its user's text, when item k can answer it.
  ghost predicate OpenAt(items: seq<Item>, k: nat, turn: string, group: seq<Message>)
    requires 1 <= k <= |items|
  {
    if k == 1 then group == [] && turn == ""
    else turn == items[k - 1].turn && (k < |items| && items[k].turn == turn ==>
           (group != [] <==> Asks(items[k - 1])))
  }

  lemma ExtendSays(items: seq<Item>, k: nat, turn: string, group: seq<Message>)
    requires Blocks(items) && 1 <= k < |items| && OpenAt(items, k, turn, group) && ItemOk(items[k])
    ensures var open := if items[k].turn == turn then group else [];
            Extend(open, items[k]) == open + Said(items, k)
    ensures OpenAt(items, k + 1, items[k].turn, Extend(if items[k].turn == turn then group else [], items[k]))
  {
    HeardIsDelivered(items[k]);
    hide ItemOk, HeardText, Delivered;
    if k + 1 < |items| && items[k + 1].turn == items[k].turn {
      assert items[k].role == User;
    }
  }

  lemma ExtendLater(group: seq<Message>)
    ensures Flatten(Closed(group)) == group
  {
    assert Flatten([group]) == group + Flatten([]);
  }

  lemma {:induction false} GatherSays(items: seq<Item>, k: nat, turn: string, group: seq<Message>)
    requires Blocks(items) && 1 <= k <= |items| && OpenAt(items, k, turn, group)
    requires forall i | k <= i < |items| :: ItemOk(items[i])
    ensures Flatten(Gather(items[k..], turn, group)) == group + AllSaid(items, k)
    decreases |items| - k
  {
    hide OpenAt, Blocks, ItemOk, Extend, Said, Gather;
    GatherStep(items, k, turn, group);
    ExtendLater(group);
    if k < |items| {
      var open := if items[k].turn == turn then group else [];
      ExtendSays(items, k, turn, group);
      GatherSays(items, k + 1, items[k].turn, Extend(open, items[k]));
      assert (open + Said(items, k)) + AllSaid(items, k + 1) == open + AllSaid(items, k);
      FlattenAppend(Closed(group), Gather(items[k + 1..], items[k].turn, Extend([], items[k])));
      assert [] + AllSaid(items, k) == AllSaid(items, k);
    }
  }

  lemma GatherStep(items: seq<Item>, k: nat, turn: string, group: seq<Message>)
    requires k <= |items|
    ensures k == |items| ==> Gather(items[k..], turn, group) == Closed(group)
    ensures k < |items| ==>
              Gather(items[k..], turn, group) ==
              if items[k].turn != turn
              then Closed(group) + Gather(items[k + 1..], items[k].turn, Extend([], items[k]))
              else Gather(items[k + 1..], turn, Extend(group, items[k]))
  {
    if k < |items| { assert items[k..][0] == items[k] && items[k..][1..] == items[k + 1..]; }
    hide Extend;
  }

  // Every exchange is one user text and the answers behind it.
  predicate OneQuestion(g: seq<Message>) {
    g != [] && g[0].role == User && forall i | 1 <= i < |g| :: g[i].role == Assistant
  }

  lemma OneMore(items: seq<Item>, k: nat, open: seq<Message>)
    requires Blocks(items) && 1 <= k < |items| && (open != [] ==> OneQuestion(open))
    requires open != [] ==> k > 1 && items[k - 1].turn == items[k].turn
    requires open == [] && Replies(items[k]) ==> !(k > 1 && Asks(items[k - 1]) && items[k - 1].turn == items[k].turn)
    ensures open + Said(items, k) != [] ==> OneQuestion(open + Said(items, k))
  {
    hide HeardText;
  }

  lemma {:induction false} GatherTurns(items: seq<Item>, k: nat, turn: string, group: seq<Message>)
    requires Blocks(items) && 1 <= k <= |items| && OpenAt(items, k, turn, group) && (group != [] ==> OneQuestion(group))
    requires forall i | k <= i < |items| :: ItemOk(items[i])
    ensures forall g: seq<Message> | g in Gather(items[k..], turn, group) :: OneQuestion(g)
    decreases |items| - k
  {
    GatherStep(items, k, turn, group);
    if k < |items| {
      var open := if items[k].turn == turn then group else [];
      ExtendSays(items, k, turn, group);
      OneMore(items, k, open);
      hide OpenAt, Blocks, ItemOk, Extend, Said, Gather, OneQuestion;
      GatherTurns(items, k + 1, items[k].turn, Extend(open, items[k]));
    }
  }

  // The request: the system message, then what was said from some exchange on, in
  // order and without gaps, the candidate last.
  lemma RequestExact(c: Config, items: seq<Item>, candidate: Text)
    requires ValidConfig(c) && Shape(c, items)
    ensures var groups := Groups(c, items[1..], candidate);
            && Flatten(groups) == AllSaid(items, 1) + (if c.blank(candidate) then [] else [Message(User, candidate)])
            && (forall g: seq<Message> | g in groups :: OneQuestion(g))
            && Window(c, items, candidate) == [Message(System, c.systemPrompt)] + Flatten(groups[Cut(c, groups)..])
  {
    assert Blocks(items) && forall i | 1 <= i < |items| :: ItemOk(items[i]);
    hide Shape, ItemOk, Blocks, ValidConfig, Fits;
    GatherSays(items, 1, "", []);
    GatherTurns(items, 1, "", []);
    assert [] + AllSaid(items, 1) == AllSaid(items, 1);
    var tail := if c.blank(candidate) then [] else [[Message(User, candidate)]];
    FlattenAppend(Gather(items[1..], "", []), tail);
    OneMessage(Message(User, candidate));
    assert AllSaid(items, 1) + [] == AllSaid(items, 1);
  }
}
