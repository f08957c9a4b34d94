// The history of a session over whole runs: nothing is in it but what the user said
// and what was generated, written and spoken in answer, and it is in order.
module TurnTexts {
  import C = ConversationModel
  import X = ConversationText
  import B = ConversationBounds
  import P = Playback
  import opened TurnModel
  import opened TurnInvariant
  import opened TurnSteps
  import opened TurnEvents
  import opened TurnWorks
  import opened TurnRuns
  import opened TurnDecisions
  import opened TurnInputs
  import opened TurnAnswers
  import opened TurnGuesses

  // --- the books --------------------------------------------------------------

  lemma SyncTexts(b: P.Books)
    ensures X.TextsSame(b.items, P.Sync(b).items)
  {
    if b.timeline.Some? { X.SettleText(b.items, b.gen, b.timeline.value.sent, b.timeline.value.played, false); }
    hide C.Progress, X.TextSame;
    if b.timeline.None? { X.TextsReflexive(b.items); }
  }

  lemma FinalTexts(b: P.Books)
    ensures X.TextsSame(b.items, P.FinalizeCurrent(b).items) && X.TextsSame(b.items, P.EndGeneration(b).items)
  {
    SyncTexts(b);
    var c := P.Sync(b);
    X.SettleText(c.items, c.gen, 0, 0, false);
    X.TextsTwice(b.items, c.items, P.FinalizeCurrent(b).items);
    hide P.Sync, C.Finalize, X.TextsSame;
  }

  lemma DoneTexts(b: P.Books)
    ensures X.TextsSame(b.items, P.Sync(b.(items := C.Done(b.items, b.gen, true))).items)
  {
    X.SettleText(b.items, b.gen, 0, 0, true);
    var d := b.(items := C.Done(b.items, b.gen, true));
    SyncTexts(d);
    X.TextsTwice(b.items, d.items, P.Sync(d).items);
    hide P.Sync, C.Done, X.TextsSame;
  }

  // --- what an event adds -----------------------------------------------------

  // A turn that is answered: its text, and an answer that holds nothing yet.
  function Answered(r: X.Records, turn: string, text: C.Text, gen: string): X.Records {
    X.Records(r.answers[gen := X.Record([], [], [])], r.turns[turn := text])
  }

  // Text of the running generation, or of none.
  function NotedText(u: Setup, b: P.Books, r: X.Records, e: BookEvent): X.Records {
    match e
    case TextEvent(id, text, sent) =>
      if id != "" && id == b.gen && b.live && b.items != []
      then X.Recorded(u.conversation, b.items, r, C.AppendOp(id, text, sent)) else r
    case RegisterEvent(id, sequence, text, rate, channels, frames) =>
      if id != "" && id == b.gen && b.live && b.timeline.Some? && b.items != [] && rate > 0 && channels > 0
         && frames > 0
         && (b.timeline.value.generated > 0 ==> b.timeline.value.rate == rate && b.timeline.value.channels == channels)
      then X.Recorded(u.conversation, b.items, r,
                      C.AddChunkOp(id, sequence, text, b.timeline.value.generated, b.timeline.value.generated + frames))
      else r
    case _ => r
  }

  // The guess that a promotion answers with.
  predicate Takes(u: Setup, s: Session, ctx: nat, key: Key, now: int) {
    && Promotable(u, s, ctx, key)
    && var w := s.spec.works[s.spec.current.value];
       now < w.started + u.timeout && w.ready && w.result.Some? && w.result.value != []
       && Speech(u.conversation, w.result.value)
  }

  function Noted(u: Setup, s: Session, r: X.Records, e: Event): X.Records {
    match e
    case BooksEvent(event) => NotedText(u, s.books, r, event)
    case StartGenerationEvent(_, _, _, gen) => r.(answers := r.answers[gen := X.Record([], [], [])])
    case ResponseEvent(ctx, text, _, _, _, gen) =>
      if Open(s, ctx) && Speech(u.conversation, text) then Answered(r, s.response.turn, text, gen) else r
    case PromoteEvent(ctx, key, _, _, gen, now) =>
      if Takes(u, s, ctx, key, now)
      then Answered(r, s.response.turn, s.spec.works[s.spec.current.value].result.value, gen) else r
    case _ => r
  }

  // --- one event --------------------------------------------------------------

  lemma KeepTexts(u: Setup, b: P.Books, r: X.Records, e: BookEvent)
    requires b.items != [] && X.TextOk(b.items, r)
    ensures X.TextOk(Keep(u, b, e).items, NotedText(u, b, r, e))
  {
    hide X.TextOk, X.TextsSame, C.Append, C.AddChunk, X.Recorded;
    match e
    case TextEvent(id, text, sent) => X.AppendText(u.conversation, b.items, r, id, text, sent);
    case RegisterEvent(id, sequence, text, rate, channels, frames) =>
      if b.timeline.Some? {
        var g := b.timeline.value.generated;
        X.ChunkText(u.conversation, b.items, r, id, sequence, text, g, g + frames);
        X.AddChunkExact(u.conversation, b.items, id, sequence, text, g, g + frames);
      }
    case _ => PositionTexts(u, b, r, e);
  }

  // Positions and windows change no text.
  lemma PositionTexts(u: Setup, b: P.Books, r: X.Records, e: BookEvent)
    requires b.items != [] && X.TextOk(b.items, r) && !e.TextEvent? && !e.RegisterEvent?
    ensures X.TextOk(Keep(u, b, e).items, r)
  {
    hide X.TextOk, X.TextsSame;
    if e.TextDoneEvent? {
      X.SettleText(b.items, e.id, 0, 0, false);
      X.TextsKeep(b.items, C.Done(b.items, e.id, false), r);
      hide C.Done;
    } else {
      var d := Keep(u, b, e);
      hide C.Progress;
      if d.items != b.items { MovedTexts(u, b, r, e); }
    }
  }

  lemma MovedTexts(u: Setup, b: P.Books, r: X.Records, e: BookEvent)
    requires b.items != [] && X.TextOk(b.items, r) && !e.TextEvent? && !e.RegisterEvent? && !e.TextDoneEvent?
    requires Keep(u, b, e).items != b.items
    ensures X.TextOk(Keep(u, b, e).items, r)
  {
    var d := Keep(u, b, e);
    assert d.timeline.Some? && d.items ==
           C.Progress(b.items, b.gen, d.timeline.value.sent, d.timeline.value.played) by {
      hide C.Progress;
    }
    hide *;
    X.SettleText(b.items, b.gen, d.timeline.value.sent, d.timeline.value.played, false);
    X.TextsKeep(b.items, d.items, r);
  }

  // The same items, or those of the generation's end.
  predicate Settles(s: Session, d: Session) {
    d.books.items == s.books.items || d.books.items == P.EndGeneration(s.books).items
  }

  lemma SettlesTexts(s: Session, d: Session, r: X.Records)
    requires X.TextOk(s.books.items, r) && Settles(s, d)
    ensures X.TextOk(d.books.items, r)
  {
    FinalTexts(s.books);
    hide P.EndGeneration, X.TextOk, X.TextsSame;
    if d.books.items != s.books.items { X.TextsKeep(s.books.items, d.books.items, r); }
  }

  lemma ConfirmSettles(s: Session, d: Session)
    requires Confirms(s, d)
    ensures Settles(s, d)
  {
  }

  lemma RecoverSettles(s: Session, d: Session)
    requires Recovers(s, d)
    ensures Settles(s, d)
  {
  }

  lemma EndsTurnSettles(s: Session, d: Session)
    requires EndsTurn(s, d)
    ensures d.books == s.books
  {
  }

  lemma SuspicionSettles(u: Setup, s: Session, d: Session, generation: string, id: string, opening: bool, now: int)
    requires Suspicion(u, s, d, generation, id, opening, now)
    ensures Settles(s, d)
  {
  }

  lemma SpeechSettles(u: Setup, s: Session, generation: string, id: string, turn: string, now: int)
    requires Inv(u, s) && (s.input.state == Listening ==> Unused(s, turn))
    ensures Settles(s, SpeechStart(u, s, generation, id, turn, now))
  {
    SpeechDecides(u, s, generation, id, turn, now);
    var d, g := SpeechStart(u, s, generation, id, turn, now), Spoken(s, turn);
    hide Inv, SpeechStart, Spoken, Interrupted, Confirms, Suspicion;
    if s.input.active && s.input.state != Speaking {
      if Pending(s) {
        ConfirmSettles(g.(pause := g.pause.(resumed := true, id := LastName(s, generation, id))), d);
      } else if generation != "" && id != "" {
        SuspicionSettles(u, g, d, generation, id, s.input.state == Listening, now);
      }
    }
  }

  lemma InputSettles(u: Setup, s: Session, e: Event)
    requires Inv(u, s) && Enabled(s, e) && s.books.items != [] && OfInput(e)
    ensures Settles(s, InputNext(u, s, e))
  {
    hide Inv, SpeechStart, EndSpeech, CancelInput, AppendAudio, StartInput, Settles;
    match e
    case StartInputEvent => StartInputSettles(u, s);
    case SpeechStartEvent(generation, id, turn, now) => SpeechSettles(u, s, generation, id, turn, now);
    case EndSpeechEvent(valid, now) => EndSpeechSettles(u, s, valid, now);
    case CancelInputEvent(stop) => CancelSettles(u, s, stop);
    case AudioEvent(data) => AudioSettles(u, s, data);
  }

  lemma StartInputSettles(u: Setup, s: Session)
    requires Inv(u, s)
    ensures Settles(s, StartInput(s))
  {
    StartInputDecides(u, s);
    hide Inv, StartInput, Drops;
  }

  lemma EndSpeechSettles(u: Setup, s: Session, valid: bool, now: int)
    requires Inv(u, s)
    ensures Settles(s, EndSpeech(u, s, valid, now))
  {
    EndSpeechDecides(u, s, valid, now);
    hide Inv, EndSpeech, Drops;
  }

  lemma CancelSettles(u: Setup, s: Session, stop: bool)
    requires Inv(u, s)
    ensures Settles(s, CancelInput(s, stop))
  {
    if s.input.realtime { CancelInputDecides(u, s, stop); } else { LegacyCancel(s, stop); }
    hide Inv, CancelInput, Drops;
  }

  lemma AudioSettles(u: Setup, s: Session, data: Bytes)
    requires Inv(u, s)
    ensures Settles(s, AppendAudio(s, u, data))
  {
    AudioDecides(u, s, data);
    hide Inv, AppendAudio;
  }

  lemma PollSettles(u: Setup, s: Session, free: bool, idle: bool, id: string, now: int)
    requires Inv(u, s)
    ensures Settles(s, Poll(u, s, free, idle, id, now))
  {
    PollDecides(u, s, free, idle, id, now);
    var d := Poll(u, s, free, idle, id, now);
    hide Inv, Poll, Waits;
    if !(Pending(s) && now >= s.pause.started + u.decisionWindow) {
      var e := if Pending(s) && Asks(s, idle, now) then AskedAgain(s) else s;
      WaitsSettles(u, e, d, free, id, now);
    }
  }

  lemma WaitsSettles(u: Setup, s: Session, d: Session, free: bool, id: string, now: int)
    requires Waits(u, s, d, free, id, now)
    ensures d.books == s.books
  {
    hide Speculates, EndsTurn;
    if EndsTurn(s, d) { EndsTurnSettles(s, d); }
  }

  lemma EndpointSettles(u: Setup, s: Session, e: Event)
    requires Inv(u, s) && Enabled(s, e) && s.books.items != [] && OfEndpoint(e)
    ensures Settles(s, EndpointNext(u, s, e))
  {
    hide Inv, Poll, DetectorResult, ClassifierResult, Confirms, Recovers, EndsTurn;
    match e
    case PollEvent(free, idle, id, now) => PollSettles(u, s, free, idle, id, now);
    case DetectorEvent(epoch, detection) =>
      DetectorDecides(u, s, epoch, detection);
      var d, p := DetectorResult(u, s, epoch, detection), s.(pause := Reconsidered(u, s));
      if EndsTurn(p, d) { EndsTurnSettles(p, d); }
    case ClassifierEvent(revision, id, decision, now) =>
      ClassifierDecides(u, s, revision, id, decision, now);
      var d := ClassifierResult(u, s, revision, id, decision, now);
      if Confirms(s, d) { ConfirmSettles(s, d); }
      if Recovers(s, d) { RecoverSettles(s, d); }
  }

  lemma PlaybackTexts(u: Setup, s: Session, r: X.Records, e: Event)
    requires Inv(u, s) && Enabled(s, e) && s.books.items != [] && OfPlayback(e) && X.TextOk(s.books.items, r)
    ensures X.TextOk(PlaybackNext(u, s, e).books.items, Noted(u, s, r, e))
  {
    hide Inv, X.TextOk, X.TextsSame, BeginPause, PlaybackFailed, PlaybackPaused, Keep, Settles;
    match e
    case BeginPauseEvent(generation, id, now) =>
      BeginSettles(u, s, generation, id, now);
      SettlesTexts(s, BeginPause(u, s, generation, id, false, now), r);
    case SemanticEvent(generation, turn, id) =>
    case PausedEvent(generation, id, frames) => PausedTexts(u, s, r, generation, id, frames);
    case FailedEvent(generation, id) =>
      FailedSettles(u, s, generation, id);
      SettlesTexts(s, PlaybackFailed(s, generation, id), r);
    case BooksEvent(event) => KeepTexts(u, s.books, r, event);
  }

  lemma BeginSettles(u: Setup, s: Session, generation: string, id: string, now: int)
    requires Inv(u, s)
    ensures Settles(s, BeginPause(u, s, generation, id, false, now))
  {
    SuspicionExact(u, s, generation, id, false, now);
    hide Inv, BeginPause, Suspicion;
    SuspicionSettles(u, s, BeginPause(u, s, generation, id, false, now), generation, id, false, now);
  }

  lemma FailedSettles(u: Setup, s: Session, generation: string, id: string)
    requires Inv(u, s)
    ensures Settles(s, PlaybackFailed(s, generation, id))
  {
    FailedDecides(u, s, generation, id);
    var d := PlaybackFailed(s, generation, id);
    hide Inv, PlaybackFailed, Confirms;
    if Confirms(s, d) { ConfirmSettles(s, d); }
  }

  lemma PausedTexts(u: Setup, s: Session, r: X.Records, generation: string, id: string, frames: int)
    requires Inv(u, s) && X.TextOk(s.books.items, r)
    ensures X.TextOk(PlaybackPaused(s, generation, id, frames).books.items, r)
  {
    PausedDecides(u, s, generation, id, frames);
    var d := PlaybackPaused(s, generation, id, frames);
    hide Inv, PlaybackPaused, X.TextOk, X.TextsSame, C.Progress;
    if d != s {
      X.SettleText(s.books.items, s.books.gen, s.books.timeline.value.sent, d.books.timeline.value.played, false);
      X.TextsKeep(s.books.items, d.books.items, r);
    }
  }

  // --- answers ----------------------------------------------------------------

  lemma StartTexts(u: Setup, s: Session, r: X.Records, turn: string, textOnly: bool, item: string, gen: string)
    requires Inv(u, s) && X.TextOk(s.books.items, r) && Distinct3(s, turn, item, gen)
    ensures s.books.items != []
    ensures X.TextOk(StartGeneration(u, s, turn, textOnly, item, gen).books.items,
                     r.(answers := r.answers[gen := X.Record([], [], [])]))
  {
    StartDecides(u, s, turn, textOnly, item, gen);
    UnusedFinal(u, s, gen);
    FinalTexts(s.books);
    var f := P.FinalizeCurrent(s.books).items;
    hide Inv, X.TextOk, X.TextsSame, P.FinalizeCurrent, StartGeneration, C.BeginAssistant, Begun, Drops;
    X.TextsKeep(s.books.items, f, r);
    X.BeginText(u.conversation, f, r, item, turn, gen, textOnly);
  }

  lemma UnusedFinal(u: Setup, s: Session, gen: string)
    requires Inv(u, s) && Unused(s, gen)
    ensures P.FinalizeCurrent(s.books).items != [] && !X.Has(P.FinalizeCurrent(s.books).items, gen)
  {
    FinalIssued(u, s);
    hide Inv, P.FinalizeCurrent;
    UnusedGeneration(P.FinalizeCurrent(s.books).items, gen, s.ids, s.spent, 0);
  }

  // The turn's text and its answer enter history together.
  lemma AnswerTexts(u: Setup, s: Session, d: Session, r: X.Records, ctx: nat, text: C.Text, textOnly: bool,
      user: string, item: string, gen: string)
    requires Inv(u, s) && X.TextOk(s.books.items, r) && Distinct3(s, user, item, gen)
    requires Open(s, ctx) && Speech(u.conversation, text) && Answers(u, s, d, ctx, text, textOnly, user, item, gen)
    ensures X.TextOk(d.books.items, Answered(r, s.response.turn, text, gen))
  {
    hide Inv, X.TextOk;
    var turn, f := s.response.turn, P.FinalizeCurrent(s.books).items;
    var items := TurnHistory(u, s, text, user);
    UnusedFinal(u, s, gen);
    FreshUser(u, s);
    FinalTexts(s.books);
    assert d.books.items == C.BeginAssistant(u.conversation, items, item, turn, gen, textOnly);
    assert items == C.CommitUser(u.conversation, f, user, turn, text).0;
    assert X.TakesUser(u.conversation, f, turn, text);
    AskedHas(u, s, text, user, item, gen);
    hide Inv, X.TextOk, X.TextsSame, P.FinalizeCurrent, C.CommitUser, C.BeginAssistant, Answers, X.TakesUser, Speech;
    X.TextsKeep(s.books.items, f, r);
    X.UserText(u.conversation, f, r, user, turn, text);
    X.BeginText(u.conversation, items, r.(turns := r.turns[turn := text]), item, turn, gen, textOnly);
  }

  lemma FreshUser(u: Setup, s: Session)
    requires Inv(u, s) && s.response.ctx != 0 && !s.response.used
    ensures var f := P.FinalizeCurrent(s.books).items;
            f != [] && C.FindUser(f, s.response.turn, 0) == |f|
  {
    FinalIssued(u, s);
    var f := P.FinalizeCurrent(s.books).items;
    assert s.response.turn !in s.spent by { ResponseTurn(s); }
    hide Inv, P.FinalizeCurrent;
    UnspentFresh(f, s.response.turn, s.ids, s.spent);
    assert f[0].role == C.System;
  }

  lemma AskedHas(u: Setup, s: Session, text: C.Text, user: string, item: string, gen: string)
    requires Inv(u, s) && s.response.ctx != 0 && !s.response.used && Distinct3(s, user, item, gen)
    requires Speech(u.conversation, text)
    ensures TurnHistory(u, s, text, user) != [] && !X.Has(TurnHistory(u, s, text, user), gen)
  {
    hide B.Shape;
    var f, turn := P.FinalizeCurrent(s.books).items, s.response.turn;
    FinalIssued(u, s);
    assert turn !in s.spent && turn in s.ids by { ResponseTurn(s); }
    hide Inv, P.FinalizeCurrent, C.CommitUser, IssuedOk, B.StoreOk;
    UnspentFresh(f, turn, s.ids, s.spent);
    P.CommitUserOk(u.conversation, f, user, turn, text);
    UserIssued(u.conversation, f, user, turn, text, s.ids, s.spent);
    UnusedGeneration(TurnHistory(u, s, text, user), gen, s.ids + {user}, s.spent + {turn}, 0);
  }

  lemma ResponseTexts(u: Setup, s: Session, r: X.Records, ctx: nat, text: C.Text, textOnly: bool, user: string,
      item: string, gen: string)
    requires Inv(u, s) && X.TextOk(s.books.items, r) && Distinct3(s, user, item, gen)
    ensures s.books.items != []
    ensures X.TextOk(BeginResponse(u, s, ctx, text, textOnly, user, item, gen).books.items,
                     if Open(s, ctx) && Speech(u.conversation, text) then Answered(r, s.response.turn, text, gen)
                        else r)
  {
    ResponseDecides(u, s, ctx, text, textOnly, user, item, gen);
    var d := BeginResponse(u, s, ctx, text, textOnly, user, item, gen);
    hide Inv, X.TextOk, BeginResponse, Begins, Answers;
    if Open(s, ctx) && Speech(u.conversation, text) {
      AnswerTexts(u, s, d, r, ctx, text, textOnly, user, item, gen);
    }
  }

  lemma PromoteTexts(u: Setup, s: Session, r: X.Records, ctx: nat, key: Key, user: string, item: string, gen: string,
      now: int)
    requires Inv(u, s) && X.TextOk(s.books.items, r) && Distinct3(s, user, item, gen)
    ensures s.books.items != []
    ensures X.TextOk(Promote(u, s, ctx, key, user, item, gen, now).books.items,
                     Noted(u, s, r, PromoteEvent(ctx, key, user, item, gen, now)))
  {
    hide Inv, X.TextOk, Promote, Takes, BeginResponse;
    PromoteBooks(u, s, ctx, key, user, item, gen, now);
    if Takes(u, s, ctx, key, now) {
      TakesOpen(u, s, ctx, key, now);
      ResponseTexts(u, s, r, ctx, s.spec.works[s.spec.current.value].result.value, false, user, item, gen);
    }
  }

  lemma TakesOpen(u: Setup, s: Session, ctx: nat, key: Key, now: int)
    requires Takes(u, s, ctx, key, now)
    ensures Open(s, ctx) && s.spec.current.Some? && s.spec.current.value < |s.spec.works|
    ensures s.spec.works[s.spec.current.value].result.Some?
    ensures Speech(u.conversation, s.spec.works[s.spec.current.value].result.value)
  {
    hide Speech;
  }

  lemma PromoteBooks(u: Setup, s: Session, ctx: nat, key: Key, user: string, item: string, gen: string, now: int)
    requires Inv(u, s) && Distinct3(s, user, item, gen)
    ensures s.books.items != []
    ensures Promote(u, s, ctx, key, user, item, gen, now).books ==
            if Takes(u, s, ctx, key, now)
            then BeginResponse(u, s, ctx, s.spec.works[s.spec.current.value].result.value, false, user, item, gen).books
            else s.books
  {
    PromotionDecides(u, s, ctx, key, user, item, gen, now);
    hide Inv, Promote, Speech, Promotable, GivenUp, BeginResponse, Open;
  }

  lemma AnswerEventTexts(u: Setup, s: Session, r: X.Records, e: Event)
    requires Inv(u, s) && Enabled(s, e) && s.books.items != [] && OfAnswer(e) && X.TextOk(s.books.items, r)
    ensures X.TextOk(AnswerNext(u, s, e).books.items, Noted(u, s, r, e))
  {
    hide Inv, X.TextOk, StartGeneration, CancelGeneration, MarkDone, NewTextTurn, BeginResponse, Settles, Speech, Open;
    match e
    case StartGenerationEvent(turn, textOnly, item, gen) => StartTexts(u, s, r, turn, textOnly, item, gen);
    case CancelEvent(id) =>
      CancelEventSettles(u, s, id);
      SettlesTexts(s, CancelGeneration(s, id), r);
    case MarkDoneEvent(id) => MarkTexts(u, s, r, id);
    case TextTurnEvent(turn) => TextTurnBooks(u, s, turn);
    case ResponseEvent(ctx, text, textOnly, user, item, gen) =>
      ResponseTexts(u, s, r, ctx, text, textOnly, user, item, gen);
  }

  lemma CancelEventSettles(u: Setup, s: Session, id: string)
    requires Inv(u, s)
    ensures Settles(s, CancelGeneration(s, id))
  {
    CancelDecides(u, s, id);
    hide Inv, CancelGeneration, Drops;
  }

  lemma TextTurnBooks(u: Setup, s: Session, turn: string)
    requires Inv(u, s)
    ensures NewTextTurn(s, turn).books == s.books
  {
    TextDecides(u, s, turn);
    hide Inv, NewTextTurn, Drops;
  }

  lemma MarkTexts(u: Setup, s: Session, r: X.Records, id: string)
    requires Inv(u, s) && X.TextOk(s.books.items, r)
    ensures X.TextOk(MarkDone(s, id).books.items, r)
  {
    MarkDoneDecides(u, s, id);
    DoneTexts(s.books);
    hide Inv, MarkDone, X.TextOk, X.TextsSame, P.Sync, C.Done;
    if MarkDone(s, id) != s { X.TextsKeep(s.books.items, MarkDone(s, id).books.items, r); }
  }

  lemma NextTexts(u: Setup, s: Session, r: X.Records, e: Event)
    requires Inv(u, s) && Enabled(s, e) && s.books.items != [] && X.TextOk(s.books.items, r)
    ensures X.TextOk(Next(u, s, e).books.items, Noted(u, s, r, e))
  {
    NextParts(u, s, e);
    NotedPlain(u, s, r, e);
    hide Inv, X.TextOk, Enabled, Settles, InputNext, EndpointNext, PlaybackNext, AnswerNext, WorkerNext, AdoptionNext,
         Next, Noted;
    if OfInput(e) {
      InputSettles(u, s, e);
      SettlesTexts(s, InputNext(u, s, e), r);
    } else if OfEndpoint(e) {
      EndpointSettles(u, s, e);
      SettlesTexts(s, EndpointNext(u, s, e), r);
    } else if OfPlayback(e) {
      PlaybackTexts(u, s, r, e);
    } else if OfAnswer(e) {
      NextAnswers(u, s, e);
      AnswerEventTexts(u, s, r, e);
    } else if OfAdoption(e) {
      AdoptionTexts(u, s, r, e);
    } else {
      WorkerOnly(u, s, e);
    }
  }

  lemma NextAnswers(u: Setup, s: Session, e: Event)
    requires Enabled(s, e) && s.books.items != [] && OfAnswer(e)
    ensures Next(u, s, e) == AnswerNext(u, s, e)
  {
    hide Enabled, InputNext, EndpointNext, PlaybackNext, AnswerNext, WorkerNext, AdoptionNext;
  }

  // Hearing, waiting and guessing add nothing.
  lemma NotedPlain(u: Setup, s: Session, r: X.Records, e: Event)
    ensures OfInput(e) || OfEndpoint(e) || OfWorker(e) ==> Noted(u, s, r, e) == r
  {
  }

  lemma AdoptionTexts(u: Setup, s: Session, r: X.Records, e: Event)
    requires Inv(u, s) && Enabled(s, e) && s.books.items != [] && OfAdoption(e) && X.TextOk(s.books.items, r)
    ensures X.TextOk(AdoptionNext(u, s, e).books.items, Noted(u, s, r, e))
  {
    hide Inv, X.TextOk, Promote, ReadDelta, CloseStream, GenerationGone, Takes;
    match e
    case PromoteEvent(ctx, key, user, item, gen, now) => PromoteTexts(u, s, r, ctx, key, user, item, gen, now);
    case ReadEvent(k) => ReaderOnly(s, k);
    case CloseStreamEvent(k) => ReaderOnly(s, k);
    case GenerationGoneEvent(k) => ReaderOnly(s, k);
    case CloseEvent =>
  }

  // --- runs -------------------------------------------------------------------

  // The records of a run: an event that cannot happen adds nothing.
  ghost function Recording(u: Setup, s: Session, r: X.Records, events: seq<Event>): X.Records
    requires Sound(u, s)
    decreases |events|
  {
    if events == [] then r
    else Recording(u, Try(u, s, events[0]), if Enabled(s, events[0]) then Noted(u, s, r, events[0]) else r, events[1..])
  }

  lemma {:induction false} RunTexts(u: Setup, s: Session, r: X.Records, events: seq<Event>)
    requires Sound(u, s) && X.TextOk(s.books.items, r)
    ensures X.TextOk(Execute(u, s, events).books.items, Recording(u, s, r, events))
    decreases |events|
  {
    hide X.TextOk, Next, Noted, Enabled, Sound;
    if events != [] {
      var e := events[0];
      if Enabled(s, e) {
        EnabledRuns(u, s, e);
        NextOk(u, s, e);
        hide LiveInv;
        LiveTexts(u, s, r, e);
        RunTexts(u, Try(u, s, e), Noted(u, s, r, e), events[1..]);
      } else {
        RunTexts(u, s, r, events[1..]);
      }
    }
  }

  lemma LiveTexts(u: Setup, s: Session, r: X.Records, e: Event)
    requires LiveInv(u, s) && Enabled(s, e) && s.books.items != [] && X.TextOk(s.books.items, r)
    ensures X.TextOk(Next(u, s, e).books.items, Noted(u, s, r, e))
  {
    hide Inv, Enabled, X.TextOk;
    NextTexts(u, s, r, e);
  }

  // Over any run of a session, whatever is late or stale: a user's item holds the text
  // its turn was answered with, an answer's content what was generated for it, its
  // written text what was written of it, its chunks what was spoken, each in order,
  // nothing missing and nothing of another generation.
  lemma HistoryIsWhatWasSaid(u: Setup, item: string, events: seq<Event>, i: nat)
    requires C.ValidConfig(u.conversation) && item != "" && i < |Reach(u, item, events).books.items|
    ensures Sound(u, Initial(u, item))
    ensures X.HoldsText(Reach(u, item, events).books.items[i], Recording(u, Initial(u, item), X.Nothing, events))
  {
    InitialOk(u, item);
    InitialTexts(u, item);
    assert Reach(u, item, events) == Execute(u, Initial(u, item), events);
    hide LiveInv, Execute, Recording, Initial, X.HoldsText, Reach;
    RunTexts(u, Initial(u, item), X.Nothing, events);
    TextAt(Execute(u, Initial(u, item), events).books.items, Recording(u, Initial(u, item), X.Nothing, events), i);
  }

  lemma InitialTexts(u: Setup, item: string)
    ensures X.TextOk(Initial(u, item).books.items, X.Nothing)
  {
  }

  lemma TextAt(items: seq<C.Item>, r: X.Records, i: nat)
    requires X.TextOk(items, r) && i < |items|
    ensures X.HoldsText(items[i], r)
  {
  }
}
