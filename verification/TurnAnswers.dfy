// What answers a turn and when: generations begun, ended and marked done, contexts
// used once, and what becomes of a guess at each step of its way.
module TurnAnswers {
  import opened Options
  import C = ConversationModel
  import H = ConversationHistory
  import B = ConversationBounds
  import P = Playback
  import opened TurnModel
  import opened TurnInvariant
  import opened TurnWorks
  import opened TurnDecisions

  // --- generations ------------------------------------------------------------

  // The generation is over: its answer is settled and its context gone.
  ghost predicate Ends(s: Session, d: Session) {
    && d.log == s.log + Dropped(s) && d.books == P.EndGeneration(s.books)
    && d.books.gen == "" && !d.books.live && Unpaused(d.books) && !Pending(d)
    && (forall i | 0 <= i < |d.books.items| :: d.books.items[i].status != C.Pending)
    && d.input == s.input && !d.response.cancellable && d.generation == s.generation
  }

  // Cancelling ends the generation that is named, or whichever runs.
  lemma CancelDecides(u: Setup, s: Session, id: string)
    requires Inv(u, s)
    ensures var d := CancelGeneration(s, id);
            if id != "" && id != s.books.gen then d == s else Ends(s, d) && Drops(s, d)
  {
    var a := InvalidateSpeculation(s, Cancelled);
    InvalidateDrops(s, Cancelled);
    InvalidateSpeculationOk(u, s, Cancelled);
    CancelIs(u, a);
    hide Inv, InvalidateSpeculation, CancelGenerationLocked;
  }

  // The answer begins empty, as the newest item, with a timeline unless it is text alone.
  ghost predicate Begun(s: Session, d: Session, turn: string, textOnly: bool, item: string, gen: string) {
    && d.books.gen == gen && d.books.live && d.books.flow.None? && d.books.creditRequired == s.books.creditRequired
    && d.books.items != [] && d.books.items[|d.books.items| - 1] == C.AssistantItem(item, turn, gen, textOnly)
    && (forall i | 0 <= i < |d.books.items| - 1 :: d.books.items[i].status != C.Pending)
    && (if textOnly then d.books.timeline.None? else d.books.timeline == Some(P.NewTimeline(gen)))
    && !d.generation.done && d.generation.textOnly == textOnly && !Pending(d) && d.input == s.input
  }

  lemma BegunItems(c: C.Config, items: seq<C.Item>)
    requires B.StoreOk(c, items)
    ensures items != [] && forall i | 0 <= i < |items| - 1 :: items[i].status != C.Pending
  {
  }

  // A generation replaces whatever runs and drops what waited to be answered.
  lemma StartDecides(u: Setup, s: Session, turn: string, textOnly: bool, item: string, gen: string)
    requires Inv(u, s) && Unused(s, turn) && Unused(s, item) && Unused(s, gen) && turn != gen && item != gen
             && turn != item
    ensures s.books.items != [] && P.FinalizeCurrent(s.books).items != []
    ensures var d := StartGeneration(u, s, turn, textOnly, item, gen);
            && Begun(s, d, turn, textOnly, item, gen) && d.log == s.log + Dropped(s) && Drops(s, d)
            && !d.response.cancellable
            && d.books.items == C.BeginAssistant(u.conversation, P.FinalizeCurrent(s.books).items, item, turn, gen,
                                                 textOnly)
  {
    hide TurnLogOk, B.Shape, SpecOk;
    assert s.books.items != [] && !s.closed;
    var i := InvalidateSpeculation(s, Invalidated);
    InvalidateDrops(s, Invalidated);
    InvalidateSpeculationOk(u, s, Invalidated);
    CancelResponseIs(i);
    StartedBooks(u, s, turn, textOnly, item, gen);
    hide Inv, InvalidateSpeculation, CancelResponse, P.BeginGeneration;
  }

  lemma StartedBooks(u: Setup, s: Session, turn: string, textOnly: bool, item: string, gen: string)
    requires Inv(u, s) && Unused(s, turn) && Unused(s, item) && Unused(s, gen) && turn != gen && item != gen
             && turn != item
    ensures s.books.items != []
    ensures var b := P.BeginGeneration(u.conversation, s.books, item, turn, gen, textOnly);
            && b.gen == gen && b.live && b.flow.None? && b.creditRequired == s.books.creditRequired
            && P.FinalizeCurrent(s.books).items != []
            && b.items == C.BeginAssistant(u.conversation, P.FinalizeCurrent(s.books).items, item, turn, gen, textOnly)
            && b.items != [] && b.items[|b.items| - 1] == C.AssistantItem(item, turn, gen, textOnly)
            && (forall i | 0 <= i < |b.items| - 1 :: b.items[i].status != C.Pending)
            && (if textOnly then b.timeline.None? else b.timeline == Some(P.NewTimeline(gen)))
  {
    assert s.books.items != [];
    FinalIssued(u, s);
    var f := P.FinalizeCurrent(s.books);
    assert turn !in s.spent && gen !in s.ids;
    hide Inv, P.FinalizeCurrent, B.StoreOk;
    P.FinalizeOk(u.conversation, s.books);
    UnspentFresh(f.items, turn, s.ids, s.spent);
    UnusedGeneration(f.items, gen, s.ids, s.spent, 0);
    P.BeginLast(u.conversation, f.items, item, turn, gen, textOnly);
    P.BeginStoreOk(u.conversation, f.items, item, turn, gen, textOnly);
    BegunItems(u.conversation, C.BeginAssistant(u.conversation, f.items, item, turn, gen, textOnly));
  }

  // Its audio is complete: marked once, and shown in its answer.
  lemma MarkDoneDecides(u: Setup, s: Session, id: string)
    requires Inv(u, s)
    ensures var d := MarkDone(s, id);
            if id == "" || id != s.books.gen || s.generation.done then d == s
            else
              && d == s.(generation := s.generation.(done := true), books := s.books.(items := d.books.items))
              && d.books.items == P.Sync(s.books.(items := C.Done(s.books.items, s.books.gen, true))).items
              && (s.books.items != [] && s.books.items[|s.books.items| - 1].status == C.Pending ==>
                    d.books.items != [] && d.books.items[|d.books.items| - 1].audioDone)
  {
    hide Inv, P.AudioDone, P.BooksOk, P.Sync, C.Done;
    Running(u, s);
    if s.books.gen != "" { AudioDoneIs(u, s.books); }
  }

  lemma Running(u: Setup, s: Session)
    requires Inv(u, s)
    ensures P.BooksOk(u.conversation, s.books) && (s.books.gen != "" ==> s.books.live)
  {
    hide P.BooksOk;
  }

  lemma AudioDoneIs(u: Setup, b: P.Books)
    requires P.BooksOk(u.conversation, b) && b.gen != ""
    ensures P.AudioDone(b) == b.(items := P.AudioDone(b).items)
    ensures P.AudioDone(b).items == P.Sync(b.(items := C.Done(b.items, b.gen, true))).items
    ensures var n := |b.items| - 1;
            b.items[n].status == C.Pending ==>
              |P.AudioDone(b).items| == n + 1 && P.AudioDone(b).items[n].audioDone
  {
    var n := |b.items| - 1;
    var items := C.Done(b.items, b.gen, true);
    if b.items[n].status == C.Pending {
      P.LastPending(u.conversation, b.items);
      assert b.items[n].generation == b.gen;
      assert items == b.items[n := C.Marked(b.items[n], true)];
      MarkedAudio(b.items[n]);
      hide P.BooksOk, C.Marked, C.Done;
      SyncAudio(b.(items := items), n);
    }
  }

  lemma MarkedAudio(p: C.Item)
    ensures C.Marked(p, true).audioDone
  {
  }

  lemma SyncAudio(b: P.Books, n: nat)
    requires n < |b.items| && b.items[n].audioDone
    ensures |P.Sync(b).items| == |b.items| && P.Sync(b).items[n].audioDone
  {
    hide C.AdvanceChunks, C.AllPlayed;
  }

  // A text turn waits to be answered in a context of its own, while nobody listens.
  lemma TextDecides(u: Setup, s: Session, turn: string)
    requires Inv(u, s)
    ensures var d := NewTextTurn(s, turn);
            if s.input.active then d == s
            else
              && d.log == s.log + Dropped(s) && d.response == Response(s.contexts + 1, true, true, turn, false)
              && d.contexts == s.contexts + 1 && d.books == s.books && d.input == s.input && d.pause == s.pause
              && d.generation == s.generation && Drops(s, d)
  {
    assert !s.closed;
    var i := InvalidateSpeculation(s, Invalidated);
    InvalidateDrops(s, Invalidated);
    CancelResponseIs(i);
    hide Inv, InvalidateSpeculation, CancelResponse;
  }

  // --- answering --------------------------------------------------------------

  // The context still waits to be answered.
  predicate Open(s: Session, ctx: nat) { ctx != 0 && ctx == s.response.ctx && s.response.live && !s.response.used }

  // The text can be a turn: neither blank, nor malformed, nor too long.
  predicate Speech(c: C.Config, text: C.Text) { !c.blank(text) && c.valid(text) && |text| <= c.maxItemBytes }

  // The turn enters history with its text, its answer begins behind it, and the
  // model is asked with the history as it then stands.
  ghost predicate Answers(u: Setup, s: Session, d: Session, ctx: nat, text: C.Text, textOnly: bool, user: string,
      item: string, gen: string) {
    && Begun(s, d, s.response.turn, textOnly, item, gen)
    && d.log == s.log + [GenerationBegun(ctx, s.response.turn, gen)] && d.response == s.response.(used := true)
    && d.spec == s.spec
    && (var items := TurnHistory(u, s, text, user);
        && items != [] && items[|items| - 1] == C.UserItem(user, s.response.turn, text)
        && Some(d.generation.request) == C.Context(u.conversation, items, [])
        && d.books.items == C.BeginAssistant(u.conversation, items, item, s.response.turn, gen, textOnly))
  }

  // The settled history with the turn's text.
  function TurnHistory(u: Setup, s: Session, text: C.Text, user: string): seq<C.Item> {
    var items := P.FinalizeCurrent(s.books).items;
    if items == [] then [] else C.CommitUser(u.conversation, items, user, s.response.turn, text).0
  }

  lemma UserLast(c: C.Config, items: seq<C.Item>, user: string, turn: string, text: C.Text)
    requires C.ValidConfig(c) && B.StoreOk(c, items) && B.Settled(items) && B.FreshTurn(items, turn) && Speech(c, text)
    ensures var r := C.CommitUser(c, items, user, turn, text).0;
            r != [] && r[|r| - 1] == C.UserItem(user, turn, text)
  {
    P.CommitUserOk(c, items, user, turn, text);
    H.NewItemsOk(user, turn, text, "", false);
    B.NewFits(c, user, turn, text, "", false);
    hide B.Shape, H.ItemOk, B.ItemFits;
    B.AddShape(c, items, C.UserItem(user, turn, text));
    B.TrimBounded(c, items + [C.UserItem(user, turn, text)], turn);
  }

  // The history the answer is begun behind.
  lemma TurnItems(u: Setup, s: Session, text: C.Text, textOnly: bool, user: string, item: string, gen: string)
    requires Inv(u, s) && s.response.ctx != 0 && !s.response.used && Speech(u.conversation, text)
    requires Unused(s, user) && Unused(s, item) && Unused(s, gen) && user != gen && user != item && item != gen
    ensures P.FinalizeCurrent(s.books).items != []
    ensures var turn := s.response.turn;
            var items := C.CommitUser(u.conversation, P.FinalizeCurrent(s.books).items, user, turn, text).0;
            && items != [] && items[|items| - 1] == C.UserItem(user, turn, text)
            && var all := C.BeginAssistant(u.conversation, items, item, turn, gen, textOnly);
               && all != [] && all[|all| - 1] == C.AssistantItem(item, turn, gen, textOnly)
               && forall i | 0 <= i < |all| - 1 :: all[i].status != C.Pending
  {
    hide B.Shape, TurnLogOk, IssuedOk;
    var b, turn := P.FinalizeCurrent(s.books), s.response.turn;
    var items := C.CommitUser(u.conversation, b.items, user, turn, text).0;
    assert turn !in s.spent && turn in s.ids by { ResponseTurn(s); }
    FinalIssued(u, s);
    hide Inv, P.FinalizeCurrent, B.StoreOk, IssuedOk, B.Answerable, C.CommitUser, C.Window, P.BooksOk, B.FreshTurn,
         C.BeginAssistant;
    UnspentFresh(b.items, turn, s.ids, s.spent);
    UserLast(u.conversation, b.items, user, turn, text);
    P.CommitUserOk(u.conversation, b.items, user, turn, text);
    UserIssued(u.conversation, b.items, user, turn, text, s.ids, s.spent);
    UnusedGeneration(items, gen, s.ids + {user}, s.spent + {turn}, 0);
    P.BeginLast(u.conversation, items, item, turn, gen, textOnly);
    P.BeginStoreOk(u.conversation, items, item, turn, gen, textOnly);
    BegunItems(u.conversation, C.BeginAssistant(u.conversation, items, item, turn, gen, textOnly));
  }

  lemma BegunBooks(c: C.Config, b: P.Books, item: string, turn: string, gen: string, textOnly: bool)
    requires b.items != [] && P.FinalizeCurrent(b) == b
    ensures P.BeginGeneration(c, b, item, turn, gen, textOnly) ==
            P.Books(C.BeginAssistant(c, b.items, item, turn, gen, textOnly), gen, true,
                    if textOnly then None else Some(P.NewTimeline(gen)), None, b.creditRequired)
  {
    hide P.FinalizeCurrent, C.BeginAssistant;
  }

  lemma AnsweredIs(u: Setup, s: Session, text: C.Text, textOnly: bool, user: string, item: string, gen: string)
    requires Inv(u, s) && s.response.ctx != 0 && !s.response.used && Speech(u.conversation, text)
    requires Unused(s, user) && Unused(s, item) && Unused(s, gen) && user != gen && user != item && item != gen
    requires P.FinalizeCurrent(s.books).items != []
    ensures Answers(u, s, Answered(u, s, text, textOnly, user, item, gen), s.response.ctx, text, textOnly, user, item,
                    gen)
  {
    var b := P.FinalizeCurrent(s.books);
    AnswerBooks(u, s, text, textOnly, user, item, gen);
    TurnItems(u, s, text, textOnly, user, item, gen);
    FinalCredit(s.books);
    BegunBooks(u.conversation, b.(items := TurnHistory(u, s, text, user)), item, s.response.turn, gen, textOnly);
    hide *;
    AnsweredFrom(u, s, text, textOnly, user, item, gen, b);
  }

  lemma AnsweredFrom(u: Setup, s: Session, text: C.Text, textOnly: bool, user: string, item: string, gen: string,
      b: P.Books)
    requires b == P.FinalizeCurrent(s.books) && b.items != [] && b.creditRequired == s.books.creditRequired
    requires var items := TurnHistory(u, s, text, user);
             && items != [] && items[|items| - 1] == C.UserItem(user, s.response.turn, text)
             && C.Context(u.conversation, items, []).Some?
             && var all := C.BeginAssistant(u.conversation, items, item, s.response.turn, gen, textOnly);
                && all != [] && all[|all| - 1] == C.AssistantItem(item, s.response.turn, gen, textOnly)
                && (forall i | 0 <= i < |all| - 1 :: all[i].status != C.Pending)
                && P.BeginGeneration(u.conversation, b.(items := items), item, s.response.turn, gen, textOnly)
                   == P.Books(all, gen, true, if textOnly then None else Some(P.NewTimeline(gen)), None,
                              b.creditRequired)
    ensures Answers(u, s, Answered(u, s, text, textOnly, user, item, gen), s.response.ctx, text, textOnly, user, item,
                    gen)
  {
    hide P.FinalizeCurrent, C.CommitUser, C.Window, C.BeginAssistant, P.BeginGeneration;
  }

  lemma FinalCredit(b: P.Books)
    ensures P.FinalizeCurrent(b).creditRequired == b.creditRequired
  {
  }

  // A context is used once: by text that can be a turn, or by silence.
  lemma ResponseDecides(u: Setup, s: Session, ctx: nat, text: C.Text, textOnly: bool, user: string, item: string,
      gen: string)
    requires Inv(u, s) && Unused(s, user) && Unused(s, item) && Unused(s, gen) && user != gen && user != item
             && item != gen
    ensures s.books.items != []
    ensures var d := BeginResponse(u, s, ctx, text, textOnly, user, item, gen);
            && (Begins(u, s, ctx, text, user) <==> Open(s, ctx) && Speech(u.conversation, text))
            && if !Open(s, ctx) then d == s
               else if u.conversation.blank(text) then d == s.(response := s.response.(used := true))
               else if !Speech(u.conversation, text) then d == s
               else Answers(u, s, d, ctx, text, textOnly, user, item, gen)
  {
    assert s.books.items != [] && !s.closed;
    if Open(s, ctx) && Speech(u.conversation, text) {
      AnswerBooks(u, s, text, textOnly, user, item, gen);
      AnswerShape(u, s, ctx, text, textOnly, user, item, gen);
      AnsweredIs(u, s, text, textOnly, user, item, gen);
    }
    hide Inv, P.FinalizeCurrent, C.CommitUser, C.Window, P.BeginGeneration, Answers, Answered;
  }
}
