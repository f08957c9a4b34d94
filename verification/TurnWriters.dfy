// No more is ever recorded as sent than was generated, because each generation's
// writer records only what it was handed: the account of what is left with the
// writers goes with the timeline, whatever generations come and go. And what the
// window grants is accounted for until it is recorded, frame for frame. Positions of one
// generation only grow.
module TurnWriters {
  import C = ConversationModel
  import P = Playback
  import opened TurnModel
  import opened TurnInvariant
  import opened TurnSteps
  import opened TurnEvents

  // The timeline is the current generation's, and what its writer still holds fits
  // behind what was sent.
  ghost predicate TimelineOk(b: P.Books, left: map<string, int>) {
    b.timeline.Some? ==>
      var t := b.timeline.value;
      && (b.gen != "" ==> t.generation == b.gen)
      && t.sent + Unsent(left, t.generation) <= t.generated
  }

  // Every frame the current window granted is recorded as sent or still to be recorded.
  ghost predicate Conserved(b: P.Books, granted: int) {
    b.gen != "" && b.timeline.Some? ==>
      if b.flow.None? then b.timeline.value.sent == 0
      else granted >= 0 && b.timeline.value.sent + granted == b.flow.value.reserved
  }

  ghost predicate WritersOk(s: Session) {
    && s.left.Keys <= s.ids && TimelineOk(s.books, s.left) && Conserved(s.books, s.granted)
    && (s.books.gen != "" ==> s.books.gen in s.ids)
  }

  lemma WritesHonest(s: Session, e: BookEvent)
    requires WritersOk(s) && Writes(s, e)
    ensures Honest(s.books, e)
  {
  }

  // --- positions only grow ----------------------------------------------------

  ghost predicate Grows(b: P.Books, d: P.Books) {
    && (b.timeline.Some? ==>
          var t := b.timeline.value;
          d.timeline.Some? && d.timeline.value.generated >= t.generated && d.timeline.value.sent >= t.sent
            && d.timeline.value.played >= t.played)
    && (b.flow.Some? ==>
          var f := b.flow.value;
          d.flow.Some? && d.flow.value.rate == f.rate && d.flow.value.reserved >= f.reserved
            && d.flow.value.received >= f.received && d.flow.value.played >= f.played)
  }

  // From one moment of a session to a later one: the same generation with
  // positions that have grown, none, or one that was not there before.
  ghost predicate Forward(a: Session, b: Session) {
    && a.ids <= b.ids
    && if b.books.gen == a.books.gen then b.books.gen != "" ==> Grows(a.books, b.books)
       else b.books.gen == "" || b.books.gen !in a.ids
  }

  lemma ForwardTwice(a: Session, b: Session, c: Session)
    requires Forward(a, b) && Forward(b, c) && (a.books.gen != "" ==> a.books.gen in a.ids)
    ensures Forward(a, c)
  {
  }

  // --- changes that write nothing ---------------------------------------------

  ghost predicate SameTimeline(b: P.Books, d: P.Books) {
    && (d.gen == b.gen || d.gen == "")
    && (d.gen == b.gen ==> Grows(b, d))
    && (d.gen == b.gen && d.flow.Some? ==> b.flow.Some? && d.flow.value.reserved == b.flow.value.reserved)
    && (d.timeline.Some? ==>
          && b.timeline.Some?
          && d.timeline.value.generation == b.timeline.value.generation
          && d.timeline.value.sent == b.timeline.value.sent
          && d.timeline.value.generated == b.timeline.value.generated)
  }

  ghost predicate FreshTimeline(d: P.Books, ids: set<string>) {
    && (d.gen == "" || (d.gen !in ids && d.flow.None?))
    && (d.timeline.Some? ==>
          var t := d.timeline.value;
          t.generation !in ids && (d.gen == t.generation || d.gen == "") && t.sent == 0 && t.generated == 0)
  }

  ghost predicate Steady(a: Session, b: Session) {
    && b.left == a.left && b.granted == a.granted && a.ids <= b.ids
    && (SameTimeline(a.books, b.books) || FreshTimeline(b.books, a.ids))
    && (b.books.gen == a.books.gen || b.books.gen == "" || b.books.gen in b.ids)
  }

  lemma SteadyOk(a: Session, b: Session)
    requires WritersOk(a) && Steady(a, b)
    ensures WritersOk(b) && Forward(a, b)
  {
  }

  lemma SteadyTwice(a: Session, b: Session, c: Session)
    requires Steady(a, b) && Steady(b, c)
    ensures Steady(a, c)
  {
  }

  lemma Unwritten(a: Session, b: Session)
    requires b.books == a.books && b.left == a.left && b.granted == a.granted && a.ids <= b.ids
    ensures Steady(a, b)
  {
  }

  // --- the books --------------------------------------------------------------

  lemma BooksSame(b: P.Books, frames: int, paused: bool)
    ensures SameTimeline(b, P.FinalizeCurrent(b)) && SameTimeline(b, P.EndGeneration(b))
    ensures SameTimeline(b, P.PauseTimeline(b, paused)) && SameTimeline(b, P.AudioDone(b))
    ensures SameTimeline(b, P.RecordSource(b, frames).0)
  {
    hide C.Progress, C.Finalize, C.Done;
  }

  lemma KeepTimeline(u: Setup, s: Session, e: BookEvent)
    requires s.books.items != [] && TimelineOk(s.books, s.left) && Writes(s, e)
    ensures TimelineOk(Keep(u, s.books, e), Owed(u, s.books, s.left, e))
  {
    hide C.Append, C.AddChunk, C.Done, C.Progress;
  }

  // Only the grants of the window and the records of its writer change the account.
  lemma KeepHeld(u: Setup, s: Session, e: BookEvent)
    requires s.books.items != [] && Conserved(s.books, s.granted) && Writes(s, e)
    ensures Conserved(Keep(u, s.books, e), Granted(s.books, s.granted, e))
  {
    hide C.Append, C.AddChunk, C.Done, C.Progress;
  }

  lemma KeepGrows(u: Setup, b: P.Books, e: BookEvent)
    requires b.items != []
    ensures Keep(u, b, e).gen == b.gen && Grows(b, Keep(u, b, e))
  {
    hide C.Append, C.AddChunk, C.Done, C.Progress;
  }

  lemma KeepWriters(u: Setup, s: Session, e: BookEvent)
    requires Inv(u, s) && WritersOk(s) && Writes(s, e)
    ensures s.books.items != [] && WritersOk(KeepBooks(u, s, e)) && Forward(s, KeepBooks(u, s, e))
  {
    assert P.BooksOk(u.conversation, s.books);
    hide Inv, Keep, Owed, TimelineOk, Conserved, Writes, Grows, Granted;
    KeepTimeline(u, s, e);
    KeepHeld(u, s, e);
    KeepGrows(u, s.books, e);
    OwedKeys(u, s, e);
  }

  lemma OwedKeys(u: Setup, s: Session, e: BookEvent)
    requires s.books.items != [] && s.left.Keys <= s.ids && (s.books.gen != "" ==> s.books.gen in s.ids)
    ensures Owed(u, s.books, s.left, e).Keys <= s.ids
  {
    hide C.AddChunk;
  }

  // --- the session ------------------------------------------------------------

  lemma CommitUnwritten(s: Session)
    ensures CommitTurn(s).books == s.books && CommitTurn(s).left == s.left && CommitTurn(s).granted == s.granted
    ensures s.ids <= CommitTurn(s).ids
  {
    MarkUnwritten(s);
    var d := ResetEndpoint(MarkCommitted(s));
    ResponseUnwritten(d, d.input.turn);
    hide MarkCommitted, MarkedKey, NewResponse;
  }

  lemma MarkUnwritten(s: Session)
    ensures var d := MarkCommitted(s); d.books == s.books && d.left == s.left && d.granted == s.granted
  {
    hide MarkedKey;
  }

  lemma ResponseUnwritten(s: Session, turn: string)
    ensures var d := NewResponse(s, turn); d.books == s.books && d.left == s.left && d.granted == s.granted
  {
  }

  lemma InvalidateUnwritten(s: Session, state: WorkState)
    ensures var d := InvalidateSpeculation(s, state); d.books == s.books && d.left == s.left && d.granted == s.granted
  {
  }

  lemma CancelSteady(s: Session)
    ensures Steady(s, CancelGenerationLocked(s))
  {
    hide P.EndGeneration;
    BooksSame(s.books, 0, false);
  }

  lemma ConfirmSteady(s: Session)
    ensures Steady(s, ConfirmPause(s))
  {
    hide CancelGenerationLocked, CommitTurn, SameTimeline, FreshTimeline;
    CancelSteady(s);
    Unwritten(s, s);
    var d := CancelGenerationLocked(s);
    CommitUnwritten(Note(d.(pause := d.pause.(state := Confirmed)), PauseConfirmed(d.pause.id)));
  }

  lemma RecoverSteady(s: Session)
    ensures Steady(s, RecoverPause(s))
  {
    hide P.PauseTimeline, InvalidateSpeculation, P.Sync;
    BooksSame(s.books, 0, false);
    InvalidateUnwritten(Released(s), Invalidated);
  }

  lemma BeginPauseSteady(u: Setup, s: Session, generation: string, id: string, opening: bool, now: int)
    ensures Steady(s, BeginPause(u, s, generation, id, opening, now))
  {
    hide ConfirmPause, P.PauseTimeline, Recoverable;
    BooksSame(s.books, 0, true);
    ConfirmSteady(s.(pause := s.pause.(id := id, resumed := true)));
  }

  lemma SpokenSteady(s: Session, turn: string)
    ensures Steady(s, Spoken(s, turn))
  {
    hide InvalidateSpeculation;
    var d := CancelResponse(s);
    InvalidateUnwritten(d, Invalidated);
    InvalidateUnwritten(d.(input := d.input.(turn := turn, hasSpeech := false), ids := d.ids + {turn},
                           spoke := |d.stream|), Invalidated);
  }

  lemma SpeechSteady(u: Setup, s: Session, generation: string, id: string, turn: string, now: int)
    ensures Steady(s, SpeechStart(u, s, generation, id, turn, now))
  {
    hide SpeechStart, Spoken, BeginPause, ConfirmPause, Steady;
    if Hearing(s) && s.input.state != Speaking {
      SpeechShape(u, s, generation, id, turn, now);
      SpokenSteady(s, turn);
      var g := Spoken(s, turn);
      var p := g.(pause := Resumed(g, generation, id));
      var after := SpeechStart(u, s, generation, id, turn, now);
      Unwritten(g, p);
      ConfirmSteady(p);
      BeginPauseSteady(u, g, generation, id, s.input.state == Listening, now);
      if Pending(g) {
        SteadyTwice(s, g, p);
        SteadyTwice(s, p, after);
      } else {
        SteadyTwice(s, g, after);
      }
    } else {
      SpeechKeeps(u, s, generation, id, turn, now);
      Unwritten(s, s);
    }
  }

  lemma EndSpeechSteady(u: Setup, s: Session, valid: bool, now: int)
    ensures Steady(s, EndSpeech(u, s, valid, now))
  {
    hide RecoverPause, InvalidateSpeculation;
    RecoverSteady(s);
    InvalidateUnwritten(s, Invalidated);
  }

  lemma CancelInputSteady(s: Session, stop: bool)
    ensures Steady(s, CancelInput(s, stop))
  {
    hide RecoverPause, InvalidateSpeculation, SameTimeline, FreshTimeline;
    var c := InvalidateSpeculation(s, Cancelled);
    InvalidateUnwritten(s, Cancelled);
    RecoverSteady(c);
    InvalidateUnwritten(RecoverPause(c), Invalidated);
    Unwritten(s, s);
  }

  lemma AppendAudioSteady(s: Session, u: Setup, data: Bytes)
    ensures Steady(s, AppendAudio(s, u, data))
  {
    hide ConfirmPause, InvalidateSpeculation, Last;
    ConfirmSteady(s);
    InvalidateUnwritten(ConfirmPause(s), Invalidated);
  }

  lemma SpeculationUnwritten(u: Setup, s: Session, id: string, now: int)
    ensures var d := StartSpeculation(u, s, id, now);
            d.books == s.books && d.left == s.left && d.granted == s.granted && s.ids <= d.ids
  {
  }

  lemma PollSteady(u: Setup, s: Session, free: bool, idle: bool, id: string, now: int)
    ensures Steady(s, Poll(u, s, free, idle, id, now))
  {
    hide ConfirmPause, CommitTurn, StartSpeculation, SameTimeline, FreshTimeline;
    ConfirmSteady(s);
    Unwritten(s, s);
    var d := CheckPause(u, s, idle, now);
    CommitUnwritten(d);
    SpeculationUnwritten(u, d.(input := d.input.(attempted := true, state := Waiting)), id, now);
  }

  lemma DetectorSteady(u: Setup, s: Session, epoch: nat, result: Detection)
    ensures Steady(s, DetectorResult(u, s, epoch, result))
  {
    hide CommitTurn, InvalidateSpeculation;
    var d := if result.DetectorFailed? then s else PauseChanged(u, s);
    CommitUnwritten(d);
    InvalidateUnwritten(d, Invalidated);
  }

  lemma ClassifierSteady(u: Setup, s: Session, revision: nat, id: string, result: Classification, now: int)
    ensures Steady(s, ClassifierResult(u, s, revision, id, result, now))
  {
    hide ConfirmPause, RecoverPause, SameTimeline, FreshTimeline;
    ConfirmSteady(s);
    RecoverSteady(s);
    Unwritten(s, s);
  }

  lemma PlaybackSteady(s: Session, generation: string, id: string, frames: int)
    ensures Steady(s, PlaybackPaused(s, generation, id, frames)) && Steady(s, PlaybackFailed(s, generation, id))
    ensures Steady(s, MarkDone(s, id))
  {
    hide P.RecordSource, P.PauseTimeline, P.AudioDone, ConfirmPause, CancelGenerationLocked;
    BooksSame(s.books, frames, true);
    BooksSame(P.RecordSource(s.books, frames).0, 0, true);
    ConfirmSteady(s);
    CancelSteady(s);
  }

  lemma CancelEventSteady(s: Session, id: string)
    ensures Steady(s, CancelGeneration(s, id))
  {
    hide CancelGenerationLocked, InvalidateSpeculation, SameTimeline, FreshTimeline;
    InvalidateUnwritten(s, Cancelled);
    CancelSteady(InvalidateSpeculation(s, Cancelled));
    Unwritten(s, s);
  }

  lemma StartSteady(u: Setup, s: Session, turn: string, textOnly: bool, item: string, gen: string)
    requires s.books.items != [] && gen !in s.ids
    ensures Steady(s, StartGenerationLocked(u, s, turn, textOnly, item, gen))
  {
    hide C.BeginAssistant, P.FinalizeCurrent;
  }

  lemma StartEventSteady(u: Setup, s: Session, turn: string, textOnly: bool, item: string, gen: string)
    requires s.books.items != [] && gen !in s.ids && gen != turn
    ensures Steady(s, StartGeneration(u, s, turn, textOnly, item, gen))
  {
    hide StartGenerationLocked, InvalidateSpeculation, SameTimeline, FreshTimeline;
    InvalidateUnwritten(s, Invalidated);
    var d := CancelResponse(InvalidateSpeculation(s, Invalidated));
    var e := d.(ids := d.ids + {turn});
    Unwritten(s, e);
    StartSteady(u, e, turn, textOnly, item, gen);
    SteadyTwice(s, e, StartGenerationLocked(u, e, turn, textOnly, item, gen));
  }

  lemma CommitResponseSteady(u: Setup, s: Session, ctx: nat, text: C.Text, textOnly: bool, user: string, item: string,
      gen: string)
    requires s.books.items != [] && gen !in s.ids && gen != user
    ensures Steady(s, CommitResponse(u, s, ctx, text, textOnly, user, item, gen))
  {
    hide P.FinalizeCurrent, C.CommitUser, C.Context, StartGenerationLocked, SameTimeline, FreshTimeline, C.Done, Grows,
         C.Progressed;
    BooksSame(s.books, 0, false);
    var b := P.FinalizeCurrent(s.books);
    if b.items != [] {
      var items := C.CommitUser(u.conversation, b.items, user, s.response.turn, text).0;
      BooksItems(s.books, b, items);
      var d := s.(books := b.(items := items), response := s.response.(used := true), ids := s.ids + {user},
                  spent := s.spent + {s.response.turn});
      if items != [] {
        StartSteady(u, d, d.response.turn, textOnly, item, gen);
        SteadyTwice(s, d, StartGenerationLocked(u, d, d.response.turn, textOnly, item, gen));
      }
    } else {
      Unwritten(s, s);
    }
  }

  lemma BooksItems(b: P.Books, d: P.Books, items: seq<C.Item>)
    requires SameTimeline(b, d)
    ensures SameTimeline(b, d.(items := items))
  {
  }

  lemma ResponseSteady(u: Setup, s: Session, ctx: nat, text: C.Text, textOnly: bool, user: string, item: string,
      gen: string)
    requires s.books.items != [] && gen !in s.ids && gen != user
    ensures Steady(s, BeginResponse(u, s, ctx, text, textOnly, user, item, gen))
  {
    hide CommitResponse, C.Context, SameTimeline, FreshTimeline;
    CommitResponseSteady(u, s, ctx, text, textOnly, user, item, gen);
    Unwritten(s, s);
  }

  lemma AdoptSteady(u: Setup, s: Session, k: nat, ctx: nat, user: string, item: string, gen: string)
    requires s.books.items != [] && k < |s.spec.works| && s.spec.works[k].result.Some?
    requires gen !in s.ids && gen != user
    ensures Steady(s, Adopt(u, s, k, ctx, user, item, gen))
  {
    hide BeginResponse, Begins, SameTimeline, FreshTimeline;
    ResponseSteady(u, s, ctx, s.spec.works[k].result.value, false, user, item, gen);
    Unwritten(s, s);
  }

  lemma PromoteSteady(u: Setup, s: Session, ctx: nat, key: Key, user: string, item: string, gen: string, now: int)
    requires s.books.items != [] && gen !in s.ids && gen != user
    ensures Steady(s, Promote(u, s, ctx, key, user, item, gen, now))
  {
    hide Adopt, SameTimeline, FreshTimeline;
    if s.spec.current.Some? && s.spec.current.value < |s.spec.works|
       && s.spec.works[s.spec.current.value].result.Some? {
      AdoptSteady(u, s, s.spec.current.value, ctx, user, item, gen);
    }
    Unwritten(s, s);
  }
}
