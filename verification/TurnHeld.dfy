// The commit barrier holds by itself: whoever asks for a promotion, with whatever
// context and key, the work that can be promoted was published with that context.
module TurnHeld {
  import opened Options
  import C = ConversationModel
  import P = Playback
  import opened TurnModel
  import opened TurnInvariant
  import opened TurnSteps
  import opened TurnEvents
  import opened TurnWorks

  // --- changes that hold nothing new ------------------------------------------

  ghost predicate TameSpec(p: Speculation, q: Speculation) {
    && (Held(q) ==> Held(p) && q.works[q.current.value].key == p.works[p.current.value].key)
    && (Sealed(p.works) ==> Sealed(q.works))
  }

  // The log grows, no turn begins, no context opens and nothing is marked.
  ghost predicate Tame(a: Session, b: Session) {
    && a.log <= b.log
    && (Mid(b.input.state) ==> Mid(a.input.state))
    && (b.response.live ==> a.response.live && b.response.ctx == a.response.ctx)
    && TameSpec(a.spec, b.spec)
  }

  lemma PublishedGrows(log: seq<Entry>, more: seq<Entry>, ctx: nat, key: Key)
    requires Published(log, ctx, key) && log <= more
    ensures Published(more, ctx, key)
  {
    var i :| 0 <= i < |log| && PublishedAt(log, i, ctx, key);
    assert PublishedAt(more, i, ctx, key);
  }

  lemma TameOk(a: Session, b: Session)
    requires HeldOk(a) && Tame(a, b)
    ensures HeldOk(b)
  {
    hide Published, Sealed;
    if Held(b.spec) && b.response.live {
      PublishedGrows(a.log, b.log, a.response.ctx, a.spec.works[a.spec.current.value].key);
    }
  }

  lemma TameTwice(a: Session, b: Session, c: Session)
    requires Tame(a, b) && Tame(b, c)
    ensures Tame(a, c)
  {
    hide Sealed, Held;
  }

  // A work that is rewritten under the same key, without being marked or revived.
  ghost predicate TameWork(v: Work, w: Work) {
    && w.key == v.key
    && (w.committed && w.live && w.state != Promoted ==> v.committed && v.live && v.state != Promoted)
    && (Done(w.state) && w.live ==> Done(v.state) && v.live)
  }

  lemma SetTame(s: Session, k: nat, w: Work)
    requires k < |s.spec.works| && TameWork(s.spec.works[k], w)
    ensures Tame(s, SetWork(s, k, w))
  {
  }

  lemma EndedTame(v: Work, w: Work, state: WorkState)
    requires Done(state) && TameWork(v, w) && (Done(v.state) ==> !v.live)
    ensures TameWork(v, Ended(w, state)) && !Ended(w, state).live
  {
  }

  // --- helpers of the session -------------------------------------------------

  lemma CancelResponseTame(s: Session)
    ensures Tame(s, CancelResponse(s)) && (s.response.live ==> s.response.cancellable) ==>
            !CancelResponse(s).response.live
    ensures Tame(s, CancelResponse(s))
  {
    hide Sealed;
  }

  lemma InvalidateTame(u: Setup, s: Session, state: WorkState)
    requires Inv(u, s) && HeldOk(s) && Done(state)
    ensures Tame(s, InvalidateSpeculation(s, state)) && !Held(InvalidateSpeculation(s, state).spec)
    ensures InvalidateSpeculation(s, state) == s.(spec := InvalidateSpeculation(s, state).spec)
  {
    assert s.spec.current == if s.spec.works == [] then None else Some(|s.spec.works| - 1);
    hide Inv;
    if s.spec.works != [] {
      var k := |s.spec.works| - 1;
      EndedTame(s.spec.works[k], s.spec.works[k], state);
      SetTame(s, k, Ended(s.spec.works[k], state));
    }
  }

  lemma CancelGenerationTame(u: Setup, s: Session)
    requires Inv(u, s)
    ensures var d := CancelGenerationLocked(s); Tame(s, d) && !d.response.live && d.spec == s.spec && d.input == s.input
  {
    hide P.EndGeneration, Sealed;
    assert s.response.live ==> s.response.cancellable;
    hide Inv;
    CancelResponseTame(InvalidatePause(s.(books := P.EndGeneration(s.books))));
  }

  // --- committing -------------------------------------------------------------

  lemma MarkedHeld(s: Session)
    requires !Held(s.spec) && Sealed(s.spec.works)
    requires forall k | 0 <= k < |s.spec.works| && s.spec.works[k].state == Promoted :: s.spec.works[k].committed
    ensures var d := MarkCommitted(s);
      && Sealed(d.spec.works)
      && (Held(d.spec) ==>
            var key := d.spec.works[d.spec.current.value].key;
            MarkedKey(s) == Some(key) && key.turn == s.input.turn)
    ensures MarkCommitted(s) == s.(spec := MarkCommitted(s).spec)
  {
  }

  lemma PromotedMarked(u: Setup, s: Session)
    requires Inv(u, s)
    ensures forall k | 0 <= k < |s.spec.works| && s.spec.works[k].state == Promoted :: s.spec.works[k].committed
  {
  }

  // A commit opens a context and publishes it with the key it marked.
  lemma CommitPublishes(s: Session)
    requires MarkCommitted(s) == s.(spec := MarkCommitted(s).spec)
    ensures var d := CommitTurn(s);
      if Pending(s) then d == s.(input := d.input) && d.input.state == s.input.state
      else
        && d.spec == MarkCommitted(s).spec && d.input.state == Listening
        && (s.input.buffer == [] ==> d.log == s.log && d.response == s.response)
        && (s.input.buffer != [] ==>
              && |d.log| > 0 && var e := d.log[|d.log| - 1];
                 e.TurnCommitted? && e.ctx == d.response.ctx && e.key == MarkedKey(s) && e.turn == s.input.turn)
  {
    hide MarkCommitted, MarkedKey;
  }

  lemma CommitHeld(u: Setup, s: Session)
    requires Inv(u, s) && HeldOk(s) && s.input.end.Some?
    ensures HeldOk(CommitTurn(s))
  {
    hide Inv, MarkCommitted, MarkedKey, Published, Sealed, Held, CommitTurn;
    EndMid(u, s);
    PromotedMarked(u, s);
    MarkedHeld(s);
    CommitPublishes(s);
    var d := CommitTurn(s);
    if !Pending(s) && s.input.buffer != [] && Held(d.spec) {
      HeldCurrent(d.spec);
      PublishedLast(d.log, d.response.ctx, d.spec.works[d.spec.current.value].key);
    }
  }

  lemma EndMid(u: Setup, s: Session)
    requires Inv(u, s)
    ensures s.input.end.Some? ==> Mid(s.input.state)
    ensures s.input.ready ==> s.input.end.Some?
  {
    assert InputOk(s.input);
  }

  lemma HeldCurrent(spec: Speculation)
    requires Held(spec)
    ensures spec.current.Some? && spec.current.value < |spec.works|
  {
  }

  lemma PublishedLast(log: seq<Entry>, ctx: nat, key: Key)
    requires |log| > 0 && PublishedAt(log, |log| - 1, ctx, key)
    ensures Published(log, ctx, key)
  {
  }

  // --- pauses -----------------------------------------------------------------

  lemma ConfirmHeld(u: Setup, s: Session)
    requires Inv(u, s) && HeldOk(s)
    ensures HeldOk(ConfirmPause(s))
  {
    hide Inv, HeldOk, CommitTurn, CancelGenerationLocked, Tame;
    if Pending(s) {
      GuardsUnreachable(u, s);
      CancelGenerationOk(u, s);
      CancelGenerationTame(u, s);
      var d := CancelGenerationLocked(s);
      var p := d.(pause := d.pause.(state := Confirmed));
      var e := Note(p, PauseConfirmed(d.pause.id));
      PauseFieldsOk(u, d, p.pause);
      PlainNote(u, p, PauseConfirmed(d.pause.id));
      NoteTame(d, p, e);
      TameTwice(s, d, e);
      TameOk(s, e);
      EndMid(u, e);
      if e.input.ready { CommitHeld(u, e); }
    }
  }

  lemma NoteTame(d: Session, p: Session, e: Session)
    requires p == d.(pause := p.pause) && d.log <= e.log && e == p.(log := e.log)
    ensures Tame(d, e)
  {
    hide Sealed, Held;
  }

  lemma RecoverTame(u: Setup, s: Session)
    requires Inv(u, s) && HeldOk(s)
    ensures Tame(s, RecoverPause(s))
  {
    hide InvalidateSpeculation, P.PauseTimeline;
    if Pending(s) {
      GuardsUnreachable(u, s);
      RecoverShape(s);
      InvalidateTame(u, s, Invalidated);
      hide Inv;
      SameInvalidation(s, Released(s), Invalidated);
    }
  }

  // Ending the current work looks at the speculation alone.
  lemma SameInvalidation(s: Session, d: Session, state: WorkState)
    requires d.spec == s.spec
    ensures InvalidateSpeculation(d, state).spec == InvalidateSpeculation(s, state).spec
    ensures InvalidateSpeculation(d, state) == d.(spec := InvalidateSpeculation(d, state).spec)
  {
  }

  // --- input ------------------------------------------------------------------

  // Nothing is held beside what was held.
  lemma Elsewhere(a: Session, b: Session)
    requires a.log <= b.log && b.spec == a.spec && (Mid(b.input.state) ==> Mid(a.input.state))
    requires b.response.live ==> a.response.live && b.response.ctx == a.response.ctx
    ensures Tame(a, b)
  {
    hide Sealed, Held;
  }

  // Ending the current work and whatever else is tame.
  lemma InvalidatedHeld(u: Setup, s: Session, state: WorkState, b: Session)
    requires Inv(u, s) && HeldOk(s) && Done(state)
    requires s.log <= b.log && b.spec == InvalidateSpeculation(s, state).spec
    requires (Mid(b.input.state) ==> Mid(s.input.state))
             && (b.response.live ==> s.response.live && b.response.ctx == s.response.ctx)
    ensures HeldOk(b) && Tame(s, b) && !Held(b.spec)
  {
    hide Inv, InvalidateSpeculation, HeldOk, Tame;
    InvalidateTame(u, s, state);
    var d := InvalidateSpeculation(s, state);
    Elsewhere(d, b);
    TameTwice(s, d, b);
    TameOk(s, b);
  }

  lemma StartInputHeld(u: Setup, s: Session)
    requires Inv(u, s) && HeldOk(s)
    ensures HeldOk(StartInput(s))
  {
    hide Inv, InvalidateSpeculation, HeldOk, Tame;
    InvalidateKeeps(s, Invalidated);
    if !s.closed && !s.input.active { InvalidatedHeld(u, s, Invalidated, StartInput(s)); }
  }

  lemma OpenPauseTame(u: Setup, s: Session, generation: string, id: string, opening: bool, now: int)
    ensures Tame(s, OpenPause(u, s, generation, id, opening, now))
  {
    hide P.PauseTimeline, Recoverable, Tame;
    Elsewhere(s, OpenPause(u, s, generation, id, opening, now));
  }

  lemma BeginPauseHeld(u: Setup, s: Session, generation: string, id: string, opening: bool, now: int)
    requires Inv(u, s) && HeldOk(s)
    ensures HeldOk(BeginPause(u, s, generation, id, opening, now))
  {
    hide Inv, ConfirmPause, OpenPause, HeldOk, Tame;
    OpenPauseTame(u, s, generation, id, opening, now);
    TameOk(s, OpenPause(u, s, generation, id, opening, now));
    var p := s.(pause := s.pause.(id := id, resumed := true));
    if Pending(s) && generation == s.pause.generation {
      PauseFieldsOk(u, s, p.pause);
      Elsewhere(s, p);
      TameOk(s, p);
      ConfirmHeld(u, p);
    }
  }

  // Speech drops the context and ends the guess: nothing is held.
  lemma SpokenHeld(u: Setup, s: Session, turn: string)
    requires Inv(u, s) && HeldOk(s) && s.input.active && s.input.state != Speaking
    ensures HeldOk(Spoken(s, turn))
  {
    hide InvalidateSpeculation, P.Core;
    assert s.response.live ==> s.response.cancellable;
    InvalidateTame(u, s, Invalidated);
    hide Inv;
    var d := CancelResponse(s);
    var r := d.input.(epoch := d.input.epoch + 1, end := None, attempted := false, ready := false, state := Speaking);
    var e := if d.input.state == Listening
             then d.(input := r.(turn := turn, hasSpeech := false), ids := d.ids + {turn}, spoke := |d.stream|)
             else d.(input := r);
    SpokenShape(s, turn, e);
    SameInvalidation(s, e, Invalidated);
  }

  lemma SpeechHeld(u: Setup, s: Session, generation: string, id: string, turn: string, now: int)
    requires Inv(u, s) && HeldOk(s) && (s.input.state == Listening ==> Unused(s, turn))
    ensures HeldOk(SpeechStart(u, s, generation, id, turn, now))
  {
    hide Inv, HeldOk, Spoken, SpeechStart, BeginPause, ConfirmPause, Tame;
    if Hearing(s) && s.input.state != Speaking {
      SpokenOk(u, s, turn);
      SpokenHeld(u, s, turn);
      SpeechShape(u, s, generation, id, turn, now);
      var g := Spoken(s, turn);
      if Pending(g) {
        var p := g.(pause := Resumed(g, generation, id));
        PauseFieldsOk(u, g, p.pause);
        Elsewhere(g, p);
        TameOk(g, p);
        ConfirmHeld(u, p);
      } else {
        BeginPauseHeld(u, g, generation, id, s.input.state == Listening, now);
      }
    } else {
      SpeechKeeps(u, s, generation, id, turn, now);
    }
  }

  lemma EndSpeechHeld(u: Setup, s: Session, valid: bool, now: int)
    requires Inv(u, s) && HeldOk(s)
    ensures HeldOk(EndSpeech(u, s, valid, now))
  {
    hide Inv, HeldOk, Tame, RecoverPause, InvalidateSpeculation;
    var d := EndSpeech(u, s, valid, now);
    if Hearing(s) && s.input.state == Speaking {
      if !valid && !s.input.hasSpeech {
        if Pending(s) {
          RecoverTame(u, s);
          TameOk(s, d);
        } else {
          InvalidateKeeps(s, Invalidated);
          InvalidatedHeld(u, s, Invalidated, d);
        }
      } else {
        Elsewhere(s, d);
        TameOk(s, d);
      }
    }
  }

  lemma CancelInputHeld(u: Setup, s: Session, stop: bool)
    requires Inv(u, s) && HeldOk(s)
    ensures HeldOk(CancelInput(s, stop))
  {
    hide Inv, HeldOk, Tame, RecoverPause, InvalidateSpeculation, CancelResponse;
    if s.input.realtime {
      var c := InvalidateSpeculation(s, Cancelled);
      InvalidateKeeps(s, Cancelled);
      InvalidateSpeculationOk(u, s, Cancelled);
      InvalidatedHeld(u, s, Cancelled, c);
      var d := RecoverPause(c);
      RecoverPauseOk(u, c);
      RecoverTame(u, c);
      TameOk(c, d);
      var e := InvalidateSpeculation(d, Invalidated);
      InvalidateKeeps(d, Invalidated);
      InvalidatedHeld(u, d, Invalidated, e);
      DropHeld(e);
      var i := d.input.(epoch := d.input.epoch + 1, end := None, attempted := false, ready := false, buffer := [],
                        turn := "", active := d.input.active && !stop,
                        state := if stop || !d.input.active then Idle else Listening);
      CancelShape(s, stop, d, i);
      RestHeld(CancelResponse(e), CancelInput(s, stop));
    } else {
      DropHeld(s);
      RestHeld(CancelResponse(s), CancelInput(s, stop));
    }
  }

  lemma DropHeld(s: Session)
    requires HeldOk(s)
    ensures HeldOk(CancelResponse(s))
  {
    hide HeldOk, Tame;
    CancelResponseTame(s);
    TameOk(s, CancelResponse(s));
  }

  // Outside a turn.
  lemma RestHeld(a: Session, b: Session)
    requires HeldOk(a) && b.log == a.log && b.spec == a.spec && b.response == a.response && !Mid(b.input.state)
    ensures HeldOk(b)
  {
    hide Published, Sealed, Held;
  }

  lemma AppendAudioHeld(u: Setup, s: Session, data: Bytes)
    requires Inv(u, s) && HeldOk(s)
    ensures HeldOk(AppendAudio(s, u, data))
  {
    hide Inv, HeldOk, Tame, ConfirmPause, InvalidateSpeculation;
    var d := AppendAudio(s, u, data);
    if !Hearing(s) || |data| % 2 != 0 || |data| > 16384 {
    } else if s.input.state != Listening && |s.input.buffer| + |data| > u.maxTurnBytes {
      ConfirmPauseOk(u, s);
      ConfirmHeld(u, s);
      InvalidateKeeps(ConfirmPause(s), Invalidated);
      InvalidatedHeld(u, ConfirmPause(s), Invalidated, d);
    } else {
      Elsewhere(s, d);
      TameOk(s, d);
    }
  }

  // --- the endpoint loop ------------------------------------------------------

  lemma CheckPauseHeld(u: Setup, s: Session, idle: bool, now: int)
    requires Inv(u, s) && HeldOk(s)
    ensures HeldOk(CheckPause(u, s, idle, now))
  {
    hide Inv, HeldOk, Tame, ConfirmPause;
    ConfirmHeld(u, s);
    var p := s.(pause := s.pause.(attempted := s.pause.revision));
    Elsewhere(s, p);
    TameOk(s, p);
  }

  lemma StartWorkTame(s: Session, id: string, now: int)
    ensures Tame(s, StartWork(s, id, now))
  {
  }

  lemma StartSpeculationTame(u: Setup, s: Session, id: string, now: int)
    ensures Tame(s, StartSpeculation(u, s, id, now))
  {
    hide StartWork, Tame;
    var d := if s.spec.attemptTurn != s.input.turn then s.(spec := s.spec.(attemptTurn := s.input.turn, attempts := 0))
             else s;
    CountersTame(s, d);
    CountersTame(s, s);
    StartWorkTame(d, id, now);
    TameTwice(s, d, StartWork(d, id, now));
  }

  lemma CountersTame(s: Session, d: Session)
    requires d == s.(spec := d.spec) && d.spec.works == s.spec.works && d.spec.current == s.spec.current
    ensures Tame(s, d)
  {
  }

  lemma CheckEndpointHeld(u: Setup, s: Session, free: bool, id: string, now: int)
    requires Inv(u, s) && HeldOk(s)
    ensures HeldOk(CheckEndpoint(u, s, free, id, now))
  {
    hide Inv, HeldOk, Tame, CommitTurn, StartSpeculation;
    if s.input.end.Some? && !s.input.ready {
      if now >= s.input.end.value + u.maxDelay {
        CommitHeld(u, s);
      } else {
        EndMid(u, s);
        var w := s.(input := s.input.(attempted := true, state := Waiting));
        var d := StartSpeculation(u, w, id, now);
        Elsewhere(s, w);
        StartSpeculationTame(u, w, id, now);
        var e := Note(d, DetectorLaunched(d.input.epoch, s.input.end.value, d.input.turn));
        SpeculationKeeps(u, w, id, now);
        Elsewhere(d, e);
        TameTwice(s, w, d);
        TameTwice(s, d, e);
        TameOk(s, e);
      }
    }
  }

  lemma PollHeld(u: Setup, s: Session, free: bool, idle: bool, id: string, now: int)
    requires Inv(u, s) && HeldOk(s)
    ensures HeldOk(Poll(u, s, free, idle, id, now))
  {
    hide HeldOk, CheckPause, CheckEndpoint;
    assert !s.closed;
    hide Inv;
    CheckPauseOk(u, s, idle, now);
    CheckPauseHeld(u, s, idle, now);
    CheckEndpointHeld(u, CheckPause(u, s, idle, now), free, id, now);
  }

  lemma DetectorHeld(u: Setup, s: Session, epoch: nat, result: Detection)
    requires Inv(u, s) && HeldOk(s)
    ensures HeldOk(DetectorResult(u, s, epoch, result))
  {
    hide Inv, HeldOk, Tame, CommitTurn, InvalidateSpeculation, PauseChanged;
    if epoch == s.input.epoch && s.input.end.Some? && !s.closed {
      var d := if result.DetectorFailed? then s else PauseChanged(u, s);
      PauseChangedOk(u, s);
      Elsewhere(s, d);
      TameOk(s, d);
      EndMid(u, s);
      InvalidateKeeps(d, Invalidated);
      match result
      case DetectorFailed => InvalidatedHeld(u, d, Invalidated, DetectorResult(u, s, epoch, result));
      case Continuation => InvalidatedHeld(u, d, Invalidated, DetectorResult(u, s, epoch, result));
      case Complete => CommitHeld(u, d);
    }
  }

  lemma ClassifierHeld(u: Setup, s: Session, revision: nat, id: string, result: Classification, now: int)
    requires Inv(u, s) && HeldOk(s)
    ensures HeldOk(ClassifierResult(u, s, revision, id, result, now))
  {
    hide Inv, HeldOk, Tame, ConfirmPause, RecoverPause;
    ConfirmHeld(u, s);
    RecoverTame(u, s);
    TameOk(s, RecoverPause(s));
  }

  // --- playback and generations -----------------------------------------------

  lemma PlaybackFailedHeld(u: Setup, s: Session, generation: string, id: string)
    requires Inv(u, s) && HeldOk(s)
    ensures HeldOk(PlaybackFailed(s, generation, id))
  {
    hide Inv, HeldOk, Tame, ConfirmPause, CancelGenerationLocked;
    ConfirmHeld(u, s);
    CancelGenerationTame(u, s);
    TameOk(s, CancelGenerationLocked(s));
  }

  lemma CancelHeld(u: Setup, s: Session, id: string)
    requires Inv(u, s) && HeldOk(s)
    ensures HeldOk(CancelGeneration(s, id))
  {
    hide Inv, HeldOk, Tame, InvalidateSpeculation, CancelGenerationLocked;
    var d := InvalidateSpeculation(s, Cancelled);
    InvalidateKeeps(s, Cancelled);
    InvalidateSpeculationOk(u, s, Cancelled);
    InvalidatedHeld(u, s, Cancelled, d);
    CancelGenerationTame(u, d);
    TameOk(d, CancelGenerationLocked(d));
  }

  lemma StartGenerationHeld(u: Setup, s: Session, turn: string, textOnly: bool, item: string, gen: string)
    requires Inv(u, s) && HeldOk(s) && s.books.items != []
    ensures HeldOk(StartGeneration(u, s, turn, textOnly, item, gen))
  {
    hide Inv, HeldOk, Tame, InvalidateSpeculation, CancelResponse, P.BeginGeneration;
    var d := InvalidateSpeculation(s, Invalidated);
    InvalidateKeeps(s, Invalidated);
    InvalidatedHeld(u, s, Invalidated, d);
    DropHeld(d);
    var e := StartGeneration(u, s, turn, textOnly, item, gen);
    CancelKeepsInput(d);
    Elsewhere(CancelResponse(d), e);
    TameOk(CancelResponse(d), e);
  }

  lemma TextTurnHeld(u: Setup, s: Session, turn: string)
    requires Inv(u, s) && HeldOk(s)
    ensures HeldOk(NewTextTurn(s, turn))
  {
    hide HeldOk, InvalidateSpeculation, CancelResponse;
    if !s.input.active {
      assert s.input.state == Idle;
      hide Inv;
      var d := InvalidateSpeculation(s, Invalidated);
      InvalidateKeeps(s, Invalidated);
      InvalidatedHeld(u, s, Invalidated, d);
      ResponseKeepsWork(d, turn);
      NothingHeld(d, NewTextTurn(s, turn));
    }
  }

  lemma ResponseKeepsWork(s: Session, turn: string)
    ensures NewResponse(s, turn).spec == s.spec && NewResponse(s, turn).input == s.input
  {
  }

  lemma NothingHeld(a: Session, b: Session)
    requires HeldOk(a) && b.spec == a.spec && !Held(a.spec) && !Mid(b.input.state)
    ensures HeldOk(b)
  {
  }

  lemma CommitResponseKeeps(u: Setup, s: Session, ctx: nat, text: C.Text, textOnly: bool, user: string, item: string,
      gen: string)
    requires s.books.items != []
    ensures var d := CommitResponse(u, s, ctx, text, textOnly, user, item, gen);
      d.input == s.input && d.response.live == s.response.live && d.response.ctx == s.response.ctx
  {
    hide P.FinalizeCurrent, C.CommitUser, C.Context, P.BeginGeneration;
  }

  lemma BeginResponseKeeps(u: Setup, s: Session, ctx: nat, text: C.Text, textOnly: bool, user: string, item: string,
      gen: string)
    requires Inv(u, s) && Unused(s, user) && Unused(s, item) && Unused(s, gen) && user != gen
    ensures s.books.items != []
    ensures Tame(s, BeginResponse(u, s, ctx, text, textOnly, user, item, gen))
    ensures BeginResponse(u, s, ctx, text, textOnly, user, item, gen).spec == s.spec
  {
    hide Inv, CommitResponse, C.Context, Tame, Begins;
    BeginResponseOk(u, s, ctx, text, textOnly, user, item, gen);
    CommitResponseKeeps(u, s, ctx, text, textOnly, user, item, gen);
    Elsewhere(s, BeginResponse(u, s, ctx, text, textOnly, user, item, gen));
  }

  lemma ResponseHeld(u: Setup, s: Session, ctx: nat, text: C.Text, textOnly: bool, user: string, item: string,
      gen: string)
    requires Inv(u, s) && HeldOk(s) && Unused(s, user) && Unused(s, item) && Unused(s, gen) && user != gen
    ensures s.books.items != [] && HeldOk(BeginResponse(u, s, ctx, text, textOnly, user, item, gen))
  {
    hide Inv, HeldOk, Tame, BeginResponse;
    BeginResponseKeeps(u, s, ctx, text, textOnly, user, item, gen);
    TameOk(s, BeginResponse(u, s, ctx, text, textOnly, user, item, gen));
  }

  // --- the worker -------------------------------------------------------------

  lemma WorkHeld(s: Session, k: nat, w: Work)
    requires HeldOk(s) && k < |s.spec.works| && TameWork(s.spec.works[k], w)
    ensures HeldOk(SetWork(s, k, w))
  {
    hide HeldOk, Tame, TameWork, SetWork;
    SetTame(s, k, w);
    TameOk(s, SetWork(s, k, w));
  }

  lemma EndWorkHeld(s: Session, k: nat, v: Work, phase: Phase)
    requires HeldOk(s) && k < |s.spec.works| && TameWork(s.spec.works[k], v)
    ensures HeldOk(SetWork(s, k, Ended(v, Cancelled).(phase := phase)))
  {
    EndedTame(s.spec.works[k], v, Cancelled);
    hide HeldOk, SetWork, Ended;
    WorkHeld(s, k, Ended(v, Cancelled).(phase := phase));
  }

  // Before the model answered nothing is promoted.
  lemma Unpromoted(u: Setup, s: Session, k: nat)
    requires Inv(u, s) && k < |s.spec.works| && (s.spec.works[k].phase == AtStt || s.spec.works[k].phase == AtModel)
    ensures s.spec.works[k].state != Promoted
  {
    assert WorkOk(u, s.spec.works[k], s.books.gen, s.generation.request);
  }

  lemma AnsweredTame(w: Work, result: Option<C.Text>, request: seq<C.Message>, terminal: Option<bool>, phase: Phase)
    requires w.state != Promoted
    ensures TameWork(w, w.(result := result, request := request, phase := phase))
    ensures TameWork(w, w.(result := result, ready := true, terminal := terminal,
                           state := if w.committed then w.state else Ready, phase := phase))
  {
  }

  lemma SttHeld(u: Setup, s: Session, k: nat, text: Option<C.Text>)
    requires Inv(u, s) && HeldOk(s) && At(s, k, AtStt) && s.books.items != []
    ensures HeldOk(SttResult(u, s, k, text))
  {
    hide Inv, HeldOk, SetWork, C.Window, ValidWork, Ended, TameWork;
    Unpromoted(u, s, k);
    var w := s.spec.works[k];
    var request := if text.None? || C.Context(u.conversation, s.books.items, text.value).None? then []
                   else C.Context(u.conversation, s.books.items, text.value).value;
    AnsweredTame(w, w.result, w.request, w.terminal, Leaving);
    WorkHeld(s, k, w.(phase := Leaving));
    AnsweredTame(w, w.result, w.request, w.terminal, AtStt);
    EndWorkHeld(s, k, w, Leaving);
    AnsweredTame(w, text, w.request, w.terminal, AtStt);
    EndWorkHeld(s, k, w.(result := text), Leaving);
    AnsweredTame(w, Some([]), w.request, Some(true), Leaving);
    WorkHeld(s, k, w.(result := Some([]), ready := true, terminal := Some(true),
                      state := if w.committed then w.state else Ready, phase := Leaving));
    AnsweredTame(w, text, request, w.terminal, AtModel);
    WorkHeld(s, k, w.(result := text, request := request, phase := AtModel));
  }

  lemma ModelHeld(u: Setup, s: Session, k: nat, ok: bool)
    requires Inv(u, s) && HeldOk(s) && At(s, k, AtModel)
    ensures HeldOk(ModelResult(s, k, ok))
  {
    hide Inv, HeldOk, SetWork, ValidWork, Ended, TameWork;
    Unpromoted(u, s, k);
    var w := s.spec.works[k];
    AnsweredTame(w, w.result, w.request, w.terminal, Leaving);
    WorkHeld(s, k, w.(phase := Leaving));
    AnsweredTame(w, w.result, w.request, w.terminal, AtModel);
    EndWorkHeld(s, k, w, Leaving);
    AnsweredTame(w, w.result, w.request, w.terminal, AtStream);
    WorkHeld(s, k, w.(ready := true, state := if w.committed then w.state else Ready, phase := AtStream));
  }

  lemma OfferHeld(u: Setup, s: Session, k: nat, text: C.Text)
    requires HeldOk(s) && k < |s.spec.works|
    ensures HeldOk(Offer(u, s, k, text))
  {
    hide HeldOk, SetWork, NoRoom, Ended;
    var w := s.spec.works[k];
    WorkHeld(s, k, Push(w, text));
    WorkHeld(s, k, w.(terminal := Some(false), phase := Leaving));
    EndWorkHeld(s, k, w, Leaving);
    WorkHeld(s, k, w.(phase := Holding(text)));
  }

  lemma StreamHeld(u: Setup, s: Session, k: nat, text: C.Text, eof: bool)
    requires HeldOk(s) && At(s, k, AtStream)
    ensures HeldOk(StreamDelta(u, s, k, text)) && HeldOk(StreamEnd(s, k, eof))
  {
    hide HeldOk, SetWork, Offer, ValidWork, Ended;
    var w := s.spec.works[k];
    WorkHeld(s, k, w.(phase := Leaving));
    EndWorkHeld(s, k, w, Leaving);
    WorkHeld(s, k, w.(terminal := Some(eof), phase := Leaving));
    OfferHeld(u, s, k, text);
  }

  lemma RetryHeld(u: Setup, s: Session, k: nat)
    requires HeldOk(s) && k < |s.spec.works| && s.spec.works[k].phase.Holding?
    ensures HeldOk(Retry(u, s, k))
  {
    hide HeldOk, SetWork, Offer, ValidWork;
    WorkHeld(s, k, s.spec.works[k].(phase := Leaving));
    OfferHeld(u, s, k, s.spec.works[k].phase.text);
  }

  lemma GoneHeld(s: Session, k: nat)
    requires HeldOk(s) && At(s, k, Leaving)
    ensures HeldOk(WorkerGone(s, k))
  {
    var w := s.spec.works[k].(phase := Gone);
    hide HeldOk, Tame;
    SetTame(s, k, w);
    var d := SetWork(s, k, w);
    var e := WorkerGone(s, k);
    BusyTame(d, e);
    TameTwice(s, d, e);
    TameOk(s, e);
  }

  lemma BusyTame(s: Session, d: Session)
    requires d == s.(spec := s.spec.(busy := false))
    ensures Tame(s, d)
  {
  }

  lemma TimeoutHeld(s: Session, k: nat)
    requires HeldOk(s) && k < |s.spec.works|
    ensures HeldOk(WorkTimeout(s, k))
  {
    hide HeldOk, SetWork, Ended;
    var w := s.spec.works[k];
    EndedKeeps(w);
    EndWorkHeld(s, k, w, Ended(w, Cancelled).phase);
  }

  lemma StreamReadHeld(s: Session, k: nat)
    requires HeldOk(s) && k < |s.spec.works|
    ensures HeldOk(ReadDelta(s, k)) && HeldOk(CloseStream(s, k)) && HeldOk(GenerationGone(s, k))
  {
    hide HeldOk, SetWork, ValidWork;
    var w := s.spec.works[k];
    if w.deltas != [] { WorkHeld(s, k, Taken(w)); }
    WorkHeld(s, k, w.(live := false, deltas := [], bytes := 0, result := None));
    WorkHeld(s, k, w.(live := false));
  }

  // --- promotion --------------------------------------------------------------

  lemma AdoptHeld(u: Setup, s: Session, k: nat, ctx: nat, user: string, item: string, gen: string)
    requires Inv(u, s) && HeldOk(s) && k < |s.spec.works| && s.spec.works[k].result.Some? && s.books.items != []
    requires Unused(s, user) && Unused(s, item) && Unused(s, gen) && user != gen
    ensures HeldOk(Adopt(u, s, k, ctx, user, item, gen))
  {
    hide Inv, HeldOk, Tame, SetWork, BeginResponse, Begins, Ended;
    var w := s.spec.works[k];
    var after := Adopt(u, s, k, ctx, user, item, gen);
    if w.result.value == [] {
      var d := s.(response := s.response.(used := true));
      Elsewhere(s, d);
      TameOk(s, d);
      var e := SetWork(d, k, w.(state := Promoted, generation := ""));
      WorkHeld(d, k, w.(state := Promoted, generation := ""));
      Elsewhere(e, after);
      TameOk(e, after);
    } else {
      BeginResponseKeeps(u, s, ctx, w.result.value, false, user, item, gen);
      var d := BeginResponse(u, s, ctx, w.result.value, false, user, item, gen);
      assert d.(spec := s.spec) == d;
      TameOk(s, d);
      EndWorkHeld(d, k, w, Ended(w, Cancelled).phase);
      EndedKeeps(w);
      var v := w.(state := Promoted, generation := gen, adopted := w.request == d.generation.request);
      var x := if v.adopted then v else v.(live := false, deltas := [], bytes := 0);
      WorkHeld(d, k, x);
      if Begins(u, s, ctx, w.result.value, user) {
        Elsewhere(SetWork(d, k, x), after);
        TameOk(SetWork(d, k, x), after);
      }
    }
  }

  lemma PromoteHeld(u: Setup, s: Session, ctx: nat, key: Key, user: string, item: string, gen: string, now: int)
    requires Inv(u, s) && HeldOk(s) && s.books.items != []
    requires Unused(s, user) && Unused(s, item) && Unused(s, gen) && user != gen
    ensures HeldOk(Promote(u, s, ctx, key, user, item, gen, now))
  {
    hide Inv, HeldOk, SetWork, Adopt, ValidWork, Ended;
    if s.spec.current.Some? && s.spec.current.value < |s.spec.works| {
      var k := s.spec.current.value;
      var w := s.spec.works[k];
      EndedKeeps(w);
      EndWorkHeld(s, k, w, Ended(w, Cancelled).phase);
      if w.result.Some? { AdoptHeld(u, s, k, ctx, user, item, gen); }
    }
  }
}
