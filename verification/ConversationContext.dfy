// The request context: the system message and the longest suffix of whole
// exchanges within both budgets, holding only what was committed or heard.
module ConversationContext {
  import opened ConversationModel
  import opened ConversationHistory
  import opened ConversationBounds

  // --- the longest suffix ----------------------------------------------------

  lemma {:induction false} CutLeast(c: Config, groups: seq<seq<Message>>, i: nat)
    requires i <= |groups|
    ensures i < Cut(c, groups) ==> !Fits(c, groups[i..])
    ensures i == Cut(c, groups) && |c.systemPrompt| <= c.maxContextBytes && 1 <= c.maxContextItems ==>
            Fits(c, groups[i..])
  {
    assert groups[0..] == groups;
    if groups != [] && !Fits(c, groups) && i > 0 {
      assert groups[1..][i - 1..] == groups[i..];
      CutLeast(c, groups[1..], i - 1);
    }
  }

  lemma {:induction false} SuffixFits(c: Config, groups: seq<seq<Message>>, i: nat)
    requires i <= |groups| && Fits(c, groups)
    ensures Fits(c, groups[i..])
  {
    if i == 0 {
      assert groups[0..] == groups;
    } else {
      assert groups[1..][i - 1..] == groups[i..];
      SuffixFits(c, groups[1..], i - 1);
    }
  }

  // Scanning from the newest exchange finds the same place.
  lemma CutIs(c: Config, groups: seq<seq<Message>>, first: nat)
    requires first <= |groups| && Fits(c, groups[first..])
    requires first > 0 ==> !Fits(c, groups[first - 1..])
    ensures first == Cut(c, groups)
  {
    var cut := Cut(c, groups);
    assert Fits(c, []) by {
      SuffixFits(c, groups[first..], |groups| - first);
      assert groups[first..][|groups| - first..] == [];
    }
    CutLeast(c, groups, first);
    CutLeast(c, groups, cut);
    if cut < first {
      assert groups[cut..][first - 1 - cut..] == groups[first - 1..];
      SuffixFits(c, groups[cut..], first - 1 - cut);
    }
  }

  // Taking one more exchange than the context holds would exceed a budget, and
  // no shorter suffix is preferred to a longer one.
  lemma ContextIsLongestSuffix(c: Config, items: seq<Item>, candidate: Text)
    requires items != [] && ValidConfig(c)
    ensures var groups := Groups(c, items[1..], candidate); var first := Cut(c, groups);
            && Window(c, items, candidate) == [Message(System, c.systemPrompt)] + Flatten(groups[first..])
            && forall i | 0 <= i <= |groups| :: Fits(c, groups[i..]) <==> first <= i
  {
    var groups := Groups(c, items[1..], candidate);
    var first := Cut(c, groups);
    CutLeast(c, groups, first);
    forall i | 0 <= i <= |groups| ensures Fits(c, groups[i..]) <==> first <= i {
      if i < first {
        CutLeast(c, groups, i);
      } else {
        assert groups[first..][i - first..] == groups[i..];
        SuffixFits(c, groups[first..], i - first);
      }
    }
  }

  // --- exchanges -------------------------------------------------------------

  // Exchanges are never empty and begin with the user.
  lemma {:induction false} GatherStarts(items: seq<Item>, turn: string, group: seq<Message>)
    requires group != [] ==> group[0].role == User
    ensures forall g: seq<Message> | g in Gather(items, turn, group) :: g != [] && g[0].role == User
    decreases |items|
  {
    if items != [] {
      if items[0].turn != turn {
        GatherStarts(items[1..], items[0].turn, Extend([], items[0]));
      } else {
        GatherStarts(items[1..], turn, Extend(group, items[0]));
      }
    }
  }

  lemma ExchangesStartWithUser(c: Config, items: seq<Item>, candidate: Text)
    ensures forall g: seq<Message> | g in Groups(c, items, candidate) :: g != [] && g[0].role == User
  {
    GatherStarts(items, "", []);
  }

  // A new turn closes what is open and starts afresh.
  lemma GatherAfresh(b: seq<Item>, turn: string, group: seq<Message>)
    requires b != [] ==> group == [] || b[0].turn != turn
    ensures Gather(b, turn, group) == Closed(group) + Gather(b, "", [])
  {
    hide Extend;
    assert Closed([]) == [];
    if b == [] { assert Closed(group) + [] == Closed(group); }
  }

  // Items from a turn boundary on form their own exchanges.
  lemma {:induction false} GatherSplit(a: seq<Item>, b: seq<Item>, turn: string, group: seq<Message>)
    requires b != [] ==> if a == [] then group == [] || b[0].turn != turn else b[0].turn != a[|a| - 1].turn
    ensures Gather(a + b, turn, group) == Gather(a, turn, group) + Gather(b, "", [])
    decreases |a|
  {
    hide Extend, Closed;
    if a == [] {
      assert a + b == b;
      GatherAfresh(b, turn, group);
    } else {
      assert (a + b)[0] == a[0] && (a + b)[1..] == a[1..] + b;
      var rest := Gather(b, "", []);
      if a[0].turn != turn {
        GatherSplit(a[1..], b, a[0].turn, Extend([], a[0]));
        var head := Gather(a[1..], a[0].turn, Extend([], a[0]));
        assert Closed(group) + (head + rest) == (Closed(group) + head) + rest;
      } else {
        GatherSplit(a[1..], b, turn, Extend(group, a[0]));
      }
    }
  }

  lemma GatherUser(u: Item)
    requires u.role == User && u.status == Committed
    ensures Gather([u], "", []) == [[Message(User, u.content)]]
  {
    assert [u][1..] == [] && Extend([], u) == [Message(User, u.content)];
    assert Gather([], u.turn, Extend([], u)) == [Extend([], u)];
  }

  // --- only what was heard ---------------------------------------------------

  // A message of one item of the history: a committed user text, or the text of
  // an answer that was delivered.
  ghost predicate OfItem(p: Item, m: Message) {
    || (p.role == User && p.status == Committed && m == Message(User, p.content))
    || (&& p.role == Assistant && (p.status == Completed || p.status == Interrupted)
        && m == Message(Assistant, if p.textOnly then p.sentText else HeardText(p.chunks, p.played)))
  }

  ghost predicate OfHistory(items: seq<Item>, m: Message) { exists k | 0 <= k < |items| :: OfItem(items[k], m) }

  lemma {:induction false} GatherHeard(items: seq<Item>, turn: string, group: seq<Message>, all: seq<Item>)
    requires forall p | p in items :: p in all && ItemOk(p)
    requires forall m | m in group :: OfHistory(all, m)
    ensures forall g: seq<Message>, m | g in Gather(items, turn, group) && m in g :: OfHistory(all, m)
    decreases |items|
  {
    if items != [] {
      var p := items[0];
      assert p in items;
      var k :| 0 <= k < |all| && all[k] == p;
      if !p.textOnly { DeliveredIsHeard(p); }
      assert p.role == User && p.status == Committed ==> OfItem(all[k], Message(User, p.content));
      assert p.role == Assistant && (p.status == Completed || p.status == Interrupted) ==>
             OfItem(all[k], Message(Assistant, Delivered(p)));
      hide OfItem, Delivered, ItemOk;
      if p.turn != turn {
        GatherHeard(items[1..], p.turn, Extend([], p), all);
      } else {
        GatherHeard(items[1..], turn, Extend(group, p), all);
      }
    }
  }

  lemma {:induction false} FlattenMember(groups: seq<seq<Message>>, m: Message)
    requires m in Flatten(groups)
    ensures exists g :: g in groups && m in g
  {
    if m in groups[0] {
      assert groups[0] in groups;
    } else {
      FlattenMember(groups[1..], m);
      var g :| g in groups[1..] && m in g;
      assert g in groups;
    }
  }

  // Nothing unheard enters a request: besides the system message it holds user
  // texts, the candidate, and for each answer exactly the text of the chunks the
  // listener heard in full (or, for text answers, what was written out).
  lemma OnlyHeard(c: Config, items: seq<Item>, candidate: Text, m: Message)
    requires HistoryOk(items) && m in Window(c, items, candidate)[1..]
    ensures OfHistory(items, m) || m == Message(User, candidate)
  {
    var groups := Groups(c, items[1..], candidate);
    assert m in Flatten(groups[Cut(c, groups)..]);
    FlattenMember(groups[Cut(c, groups)..], m);
    var g :| g in groups[Cut(c, groups)..] && m in g;
    assert forall p | p in items[1..] :: p in items;
    GatherHeard(items[1..], "", [], items);
  }

  // --- the newest user turn comes last ---------------------------------------

  lemma {:induction false} FlattenAppend(a: seq<seq<Message>>, b: seq<seq<Message>>)
    ensures Flatten(a + b) == Flatten(a) + Flatten(b)
  {
    if a == [] {
      assert a + b == b;
    } else {
      assert (a + b)[1..] == a[1..] + b;
      FlattenAppend(a[1..], b);
    }
  }

  lemma OneMessage(m: Message)
    ensures Flatten([[m]]) == [m] && Bytes([[m]]) == |m.content| && Count([[m]]) == 1
  {
    assert MessageBytes([m]) == |m.content| by { assert [m][..0] == []; }
    assert [[m]][1..] == [];
  }

  // A last exchange of a single message within the item budget is always kept.
  lemma LastKept(c: Config, groups: seq<seq<Message>>, m: Message)
    requires ValidConfig(c) && |m.content| <= c.maxItemBytes
    ensures Cut(c, groups + [[m]]) <= |groups|
    ensures var kept := Flatten((groups + [[m]])[Cut(c, groups + [[m]])..]); kept != [] && kept[|kept| - 1] == m
  {
    var all := groups + [[m]];
    assert all[|groups|..] == [[m]];
    OneMessage(m);
    if Cut(c, all) > |groups| { CutLeast(c, all, |groups|); }
    assert all[Cut(c, all)..] == groups[Cut(c, all)..] + [[m]];
    FlattenAppend(groups[Cut(c, all)..], [[m]]);
  }

  lemma CandidateLast(c: Config, items: seq<Item>, candidate: Text)
    requires ValidConfig(c) && items != [] && Context(c, items, candidate).Some? && !c.blank(candidate)
    ensures var w := Context(c, items, candidate).value; w[|w| - 1] == Message(User, candidate)
  {
    LastKept(c, Gather(items[1..], "", []), Message(User, candidate));
  }

  lemma NewestUserLast(c: Config, items: seq<Item>)
    requires ValidConfig(c) && Shape(c, items) && |items| > 1 && items[|items| - 1].role == User
    ensures Context(c, items, []).Some?
    ensures var w := Context(c, items, []).value; w[|w| - 1] == Message(User, items[|items| - 1].content)
  {
    var n := |items| - 1;
    var u := items[n];
    assert items[1..] == items[1..n] + [u];
    assert u.status == Committed && ItemFits(c, u) && (n > 1 ==> items[n - 1].turn != u.turn);
    hide Shape, ItemFits, ItemOk;
    GatherSplit(items[1..n], [u], "", []);
    GatherUser(u);
    var groups := Groups(c, items[1..], []);
    assert groups == Gather(items[1..n], "", []) + [[Message(User, u.content)]];
    LastKept(c, Gather(items[1..n], "", []), Message(User, u.content));
  }

  // --- peeking commutes with committing --------------------------------------

  ghost predicate SuffixOf<T>(a: seq<T>, b: seq<T>) { |a| <= |b| && b[|b| - |a|..] == a }

  // Dropping leading exchanges before choosing the suffix shortens it at most.
  lemma {:induction false} CutOfSuffix(c: Config, before: seq<seq<Message>>, groups: seq<seq<Message>>)
    requires ValidConfig(c)
    ensures SuffixOf(Flatten(groups[Cut(c, groups)..]), Flatten((before + groups)[Cut(c, before + groups)..]))
    decreases |before|
  {
    var all := before + groups;
    if before == [] {
      assert all == groups;
    } else if Fits(c, all) {
      assert all[|before|..] == groups && groups[0..] == groups && all[0..] == all;
      SuffixFits(c, all, |before|);
      FlattenAppend(before, groups);
    } else {
      assert all[1..] == before[1..] + groups;
      CutOfSuffix(c, before[1..], groups);
      assert all[Cut(c, all)..] == all[1..][Cut(c, all[1..])..];
    }
  }

  // The exchanges before a commit, with the candidate, are those after it with
  // the evicted ones in front.
  lemma CommittedGroups(c: Config, items: seq<Item>, u: Item, k: nat)
    requires items != [] && u.role == User && u.status == Committed && FreshTurn(items, u.turn)
    requires 1 <= k <= |items| && Boundary(items + [u], k)
    ensures Gather(items[1..], "", []) + [[Message(User, u.content)]]
            == Gather((items + [u])[1..k], "", []) + Gather((items + [u])[k..], "", [])
  {
    var all := items + [u];
    assert all[1..] == items[1..] + [u];
    GatherSplit(items[1..], [u], "", []);
    GatherUser(u);
    assert all[1..] == all[1..k] + all[k..];
    GatherSplit(all[1..k], all[k..], "", []);
  }

  // Asking with a candidate and asking after committing it is the same request
  // when nothing was evicted; otherwise the later one has lost leading exchanges.
  lemma PeekCommitCommute(c: Config, items: seq<Item>, id: string, turn: string, text: Text)
    requires ValidConfig(c) && items != [] && FreshTurn(items, turn) && FindUser(items, turn, 0) == |items|
    requires c.valid(text) && !c.blank(text) && |text| <= c.maxItemBytes
    ensures var (later, outcome) := CommitUser(c, items, id, turn, text);
            && outcome == Accepted && Context(c, items, text).Some? && Context(c, later, []).Some?
            && SuffixOf(Context(c, later, []).value[1..], Context(c, items, text).value[1..])
            && (|later| == |items| + 1 ==> Context(c, later, []) == Context(c, items, text))
  {
    var u := UserItem(id, turn, text);
    var all := items + [u];
    var k := TrimIsSuffix(c, all, turn);
    assert k <= |items| by { assert all[|items|].turn == turn; }
    var later := Kept(all, k);
    assert later[1..] == all[k..];
    CommittedGroups(c, items, u, k);
    var before, groups := Gather(all[1..k], "", []), Gather(all[k..], "", []);
    assert Groups(c, later[1..], []) == groups;
    assert Groups(c, items[1..], text) == before + groups;
    CutOfSuffix(c, before, groups);
    if |later| == |items| + 1 { assert all[1..k] == [] && before + groups == groups; }
  }
}
