// The barrier in front of promotion: which events drop a response context.
module TurnBarrier {
  import opened Options
  import P = Playback
  import opened TurnModel
  import opened TurnInvariant
  import opened TurnSteps
  import opened TurnEvents
  import opened TurnRuns
  import opened TurnPauses

  // --- what drops a context --------------------------------------------------

  // Events after which a response context that was live has been dropped.
  predicate Barrier(s: Session, e: Event) {
    || (e.SpeechStartEvent? && Hearing(s) && s.input.state != Speaking)
    || e.CancelInputEvent?
    || (e.CancelEvent? && (e.id == "" || e.id == s.books.gen))
    || e.StartGenerationEvent?
    || (e.FailedEvent? && e.generation != "" && e.generation == s.books.gen
        && (e.id == "" || (e.id == s.pause.id && e.generation == s.pause.generation)))
    || (e.TextTurnEvent? && !s.input.active)
  }

  predicate Dropped(log: seq<Entry>, ctx: nat) { exists i | 0 <= i < |log| :: log[i] == ResponseDropped(ctx) }

  lemma DroppedGrows(log: seq<Entry>, more: seq<Entry>, ctx: nat)
    requires log <= more && Dropped(log, ctx)
    ensures Dropped(more, ctx)
  {
    var i :| 0 <= i < |log| && log[i] == ResponseDropped(ctx);
    assert more[i] == log[i];
  }

  lemma CancelDrops(s: Session)
    requires s.response.cancellable
    ensures Dropped(CancelResponse(s).log, s.response.ctx)
  {
    assert CancelResponse(s).log[|s.log|] == ResponseDropped(s.response.ctx);
  }

  lemma GenerationDrops(s: Session)
    requires s.response.cancellable
    ensures Dropped(CancelGenerationLocked(s).log, s.response.ctx)
  {
    hide P.FinalizeCurrent, Dropped;
    CancelDrops(InvalidatePause(s.(books := P.EndGeneration(s.books))));
  }

  lemma ConfirmDrops(u: Setup, s: Session)
    requires Inv(u, s) && Pending(s) && s.response.cancellable
    ensures Dropped(ConfirmPause(s).log, s.response.ctx)
  {
    hide Inv, ConfirmPause, CancelGenerationLocked, CommitTurn, Sum, Dropped;
    GuardsUnreachable(u, s);
    ConfirmShape(s);
    GenerationDrops(s);
    var d := CancelGenerationLocked(s);
    var c := d.(pause := d.pause.(state := Confirmed));
    NoteSum(c, PauseConfirmed(d.pause.id));
    DroppedGrows(c.log, Decided(s).log, s.response.ctx);
    CommitSum(Decided(s));
    DroppedGrows(Decided(s).log, CommitTurn(Decided(s)).log, s.response.ctx);
  }

  lemma SpeechDrops(u: Setup, s: Session, generation: string, id: string, turn: string, now: int)
    requires Inv(u, s) && Hearing(s) && s.input.state != Speaking && s.response.cancellable
    requires s.input.state == Listening ==> Unused(s, turn)
    ensures Dropped(SpeechStart(u, s, generation, id, turn, now).log, s.response.ctx)
  {
    hide Inv, SpeechStart, Spoken, BeginPause, ConfirmPause, Sum, PauseStep, EndpointStep, Dropped;
    SpokenOk(u, s, turn);
    SpeechShape(u, s, generation, id, turn, now);
    var g := Spoken(s, turn);
    assert Dropped(g.log, s.response.ctx) by { SpokenDrops(s, turn); }
    if Pending(g) {
      var p := Resumed(g, generation, id);
      PauseFieldsOk(u, g, p);
      ConfirmSum(u, g.(pause := p));
      DroppedGrows(g.log, ConfirmPause(g.(pause := p)).log, s.response.ctx);
    } else {
      BeginPauseSteps(u, g, generation, id, s.input.state == Listening, now);
      DroppedGrows(g.log, BeginPause(u, g, generation, id, s.input.state == Listening, now).log, s.response.ctx);
    }
  }

  lemma SpokenDrops(s: Session, turn: string)
    requires s.response.cancellable
    ensures Dropped(Spoken(s, turn).log, s.response.ctx)
  {
    CancelDrops(s);
    hide Dropped, InvalidateSpeculation;
    var d := CancelResponse(s);
    var e := if d.input.state == Listening
             then d.(input := d.input.(turn := turn, hasSpeech := false), ids := d.ids + {turn}, spoke := |d.stream|)
             else d;
    InvalidateKeeps(e, Invalidated);
  }

  lemma RecoverResponse(u: Setup, s: Session)
    requires Inv(u, s)
    ensures RecoverPause(s).response == s.response
  {
    if Pending(s) {
      GuardsUnreachable(u, s);
      RecoverShape(s);
      hide Inv, RecoverPause, InvalidateSpeculation;
      InvalidateKeeps(Released(s), Invalidated);
    }
  }

  lemma CancelInputDrops(u: Setup, s: Session, stop: bool)
    requires Inv(u, s) && s.response.cancellable
    ensures Dropped(CancelInput(s, stop).log, s.response.ctx)
  {
    hide Inv, RecoverPause, InvalidateSpeculation, CancelResponse, Dropped;
    if s.input.realtime {
      var c := InvalidateSpeculation(s, Cancelled);
      InvalidateSpeculationOk(u, s, Cancelled);
      InvalidateKeeps(s, Cancelled);
      RecoverResponse(u, c);
      var d := RecoverPause(c);
      InvalidateKeeps(d, Invalidated);
      CancelDrops(InvalidateSpeculation(d, Invalidated));
      var i := d.input.(epoch := d.input.epoch + 1, end := None, attempted := false, ready := false, buffer := [],
                        turn := "", active := d.input.active && !stop,
                        state := if stop || !d.input.active then Idle else Listening);
      CancelShape(s, stop, d, i);
    } else {
      CancelDrops(s);
    }
  }

  lemma NewDrops(s: Session, turn: string)
    requires s.response.cancellable
    ensures Dropped(NewResponse(s, turn).log, s.response.ctx)
  {
    CancelDrops(s);
    hide Dropped;
  }

  lemma CancelEventDrops(u: Setup, s: Session, id: string)
    requires s.response.cancellable && (id == "" || id == s.books.gen)
    ensures Dropped(CancelGeneration(s, id).log, s.response.ctx)
  {
    hide CancelGenerationLocked, InvalidateSpeculation, Dropped;
    InvalidateKeeps(s, Cancelled);
    GenerationDrops(InvalidateSpeculation(s, Cancelled));
  }

  lemma StartDrops(u: Setup, s: Session, turn: string, textOnly: bool, item: string, gen: string)
    requires s.response.cancellable && s.books.items != [] && !s.closed
    ensures Dropped(StartGeneration(u, s, turn, textOnly, item, gen).log, s.response.ctx)
  {
    hide CancelResponse, InvalidateSpeculation, StartGenerationLocked, Sum, Dropped;
    InvalidateKeeps(s, Invalidated);
    var c := InvalidateSpeculation(s, Invalidated);
    CancelDrops(c);
    CancelResponseOpen(c);
    CancelKeepsInput(c);
    var d := CancelResponse(c);
    StartLockedSum(u, d.(ids := d.ids + {turn}), turn, textOnly, item, gen);
  }

  lemma FailedDrops(u: Setup, s: Session, generation: string, id: string)
    requires Inv(u, s) && s.response.cancellable && generation != "" && generation == s.books.gen
    requires id == "" || (id == s.pause.id && generation == s.pause.generation)
    ensures Dropped(PlaybackFailed(s, generation, id).log, s.response.ctx)
  {
    hide Inv, ConfirmPause, CancelGenerationLocked, Dropped;
    if Pending(s) { ConfirmDrops(u, s); } else { GenerationDrops(s); }
  }

  lemma TextDrops(s: Session, turn: string)
    requires s.response.cancellable && !s.input.active
    ensures Dropped(NewTextTurn(s, turn).log, s.response.ctx)
  {
    hide InvalidateSpeculation, NewResponse, Dropped;
    InvalidateKeeps(s, Invalidated);
    NewDrops(InvalidateSpeculation(s, Invalidated), turn);
  }

  lemma LiveResponse(u: Setup, s: Session)
    requires Inv(u, s)
    ensures s.books.items != [] && (s.response.live ==> s.response.cancellable && !s.closed)
  {
  }

  lemma InputDrops(u: Setup, s: Session, e: Event)
    requires Inv(u, s) && Enabled(s, e) && Barrier(s, e) && s.response.cancellable && s.books.items != [] && OfInput(e)
    ensures Dropped(InputNext(u, s, e).log, s.response.ctx)
  {
    hide Inv, Dropped, SpeechStart, CancelInput;
    match e
    case SpeechStartEvent(generation, id, turn, now) => SpeechDrops(u, s, generation, id, turn, now);
    case CancelInputEvent(stop) => CancelInputDrops(u, s, stop);
  }

  lemma FailedNext(u: Setup, s: Session, e: Event)
    requires e.FailedEvent? && Enabled(s, e) && s.books.items != []
    ensures PlaybackNext(u, s, e) == PlaybackFailed(s, e.generation, e.id)
  {
    hide PlaybackFailed;
  }

  lemma AnswerDrops(u: Setup, s: Session, e: Event)
    requires Inv(u, s) && Enabled(s, e) && Barrier(s, e) && s.response.cancellable && s.books.items != [] && OfAnswer(e)
    ensures Dropped(AnswerNext(u, s, e).log, s.response.ctx)
  {
    hide Inv, Dropped, CancelGeneration, StartGeneration, NewTextTurn;
    match e
    case CancelEvent(id) => CancelEventDrops(u, s, id);
    case StartGenerationEvent(turn, textOnly, item, gen) => StartDrops(u, s, turn, textOnly, item, gen);
    case TextTurnEvent(turn) => TextDrops(s, turn);
  }

  // Speech, cancelled or stopped input, a cancelled, failed or replaced generation
  // and a text turn all drop the context a speculation could be promoted in.
  lemma BarrierDrops(u: Setup, s: Session, e: Event)
    requires Inv(u, s) && Enabled(s, e) && Barrier(s, e) && s.response.live
    ensures s.books.items != [] && Dropped(Next(u, s, e).log, s.response.ctx)
  {
    hide Inv, Dropped, InputNext, EndpointNext, PlaybackNext, AnswerNext, WorkerNext, AdoptionNext, Enabled;
    LiveResponse(u, s);
    if OfInput(e) {
      InputDrops(u, s, e);
    } else if e.FailedEvent? {
      FailedDrops(u, s, e.generation, e.id);
      FailedNext(u, s, e);
    } else {
      AnswerDrops(u, s, e);
    }
  }
}
