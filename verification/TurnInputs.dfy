// What the user and the player bring about: when a turn begins, goes on or is
// dropped, when a pause is opened, and what becomes of an open one.
module TurnInputs {
  import opened Arithmetic
  import opened Options
  import F = Flow
  import C = ConversationModel
  import P = Playback
  import opened TurnModel
  import opened TurnInvariant
  import opened TurnSteps
  import opened TurnDecisions

  // --- opening a pause --------------------------------------------------------

  // The user speaks within a turn while this generation answers.
  predicate Interrupts(u: Setup, s: Session, generation: string, id: string) {
    && !s.closed && u.interruption && s.input.active && s.input.realtime && s.input.state !in {Idle, Listening}
    && generation != "" && generation == s.books.gen && 0 < |id| <= 128
  }

  // Something of the answer is still to come, or written and not yet heard.
  predicate Unheard(s: Session) {
    s.books.live && (!s.generation.done
                     || (s.books.timeline.Some? && s.books.timeline.value.sent > s.books.timeline.value.played))
  }

  // The answer is paused where it is, and the clock of the decision starts.
  ghost predicate Suspects(u: Setup, s: Session, d: Session, generation: string, id: string, opening: bool, now: int) {
    && d.log == s.log + [Suspected(id)]
    && d == s.(log := d.log, pause := d.pause, books := s.books.(timeline := d.books.timeline))
    && (s.books.timeline.None? ==> d.books.timeline.None?)
    && (s.books.timeline.Some? ==>
          d.books.timeline == Some(s.books.timeline.value.(paused := true,
                                                           pausePlayed := s.books.timeline.value.played)))
    && d.pause == PauseOf(u, s, Paused, generation, id, opening, now)
  }

  function PauseOf(u: Setup, s: Session, state: PauseState, generation: string, id: string, opening: bool,
      now: int): Pause
  {
    Pause(state, id, generation, s.input.turn, now, s.pause.revision + 1, 0, if opening then now + u.sustain else now,
          !opening, 0)
  }

  // A suspicion pauses an answer that is still unheard, once; a second one, under
  // another name, confirms the first.
  ghost predicate Suspicion(u: Setup, s: Session, d: Session, generation: string, id: string, opening: bool, now: int) {
    if !Interrupts(u, s, generation, id) then d == s
    else if Pending(s) then
      if s.pause.id == id then d == s else Confirms(s.(pause := s.pause.(id := id, resumed := true)), d)
    else if Unheard(s) then Suspects(u, s, d, generation, id, opening, now)
    else d == s.(pause := PauseOf(u, s, PauseState.Recovered, generation, id, opening, now))
  }

  lemma SuspicionExact(u: Setup, s: Session, generation: string, id: string, opening: bool, now: int)
    requires Inv(u, s)
    ensures Suspicion(u, s, BeginPause(u, s, generation, id, opening, now), generation, id, opening, now)
  {
    hide ConfirmPause, PromotedOk;
    assert Pending(s) ==> s.pause.generation == s.books.gen;
    if Pending(s) {
      RenamedInv(u, s, s.pause.(id := id, resumed := true));
      ConfirmsExact(u, s.(pause := s.pause.(id := id, resumed := true)));
    }
    hide Inv, ConfirmPause, Confirms;
  }

  // A pause may be renamed.
  lemma RenamedInv(u: Setup, s: Session, p: Pause)
    requires Inv(u, s) && p.state == s.pause.state && p.generation == s.pause.generation && p.turn == s.pause.turn
    ensures Inv(u, s.(pause := p))
  {
    hide P.BooksOk, InputOk, AudioOk, CommitsOk, ResponseOk, IssuedOk, TurnsOk, TurnLogOk, SpecOk, PromotedOk;
  }

  // --- speech -----------------------------------------------------------------

  // The user speaks: in a new turn, or on in the one whose end was expected.
  function Speaks(s: Session, turn: string): Input {
    var opening := s.input.state == Listening;
    s.input.(turn := if opening then turn else s.input.turn, hasSpeech := s.input.hasSpeech && !opening,
             epoch := s.input.epoch + 1, end := None, attempted := false, ready := false, state := Speaking)
  }

  // Whatever waited to be answered is dropped.
  ghost predicate Interrupted(s: Session, d: Session, turn: string) {
    && d.input == Speaks(s, turn) && d.stream == s.stream && d.lo == s.lo && d.listen == s.listen
    && d.spoke == (if s.input.state == Listening then |s.stream| else s.spoke)
    && !d.response.cancellable && (!d.response.live || !s.response.cancellable) && Drops(s, d)
    && d.response.ctx == s.response.ctx
  }

  lemma SpokenIs(s: Session, turn: string)
    ensures var g := Spoken(s, turn);
            && Interrupted(s, g, turn) && g.log == s.log + Dropped(s) && g.books == s.books && g.pause == s.pause
            && g.generation == s.generation && g.closed == s.closed
  {
    CancelResponseIs(s);
    var d := CancelResponse(s);
    var e := if d.input.state == Listening
             then d.(input := d.input.(turn := turn, hasSpeech := false), ids := d.ids + {turn}, spoke := |d.stream|)
             else d;
    InvalidateDrops(e, Invalidated);
    hide CancelResponse, InvalidateSpeculation;
  }

  // What the player called the pause last.
  function LastName(s: Session, generation: string, id: string): string {
    if generation == s.books.gen && id != "" then id else s.pause.id
  }

  // Speech confirms an open pause, under the name the player gave it last, and may
  // open one when there is none.
  lemma SpeechDecides(u: Setup, s: Session, generation: string, id: string, turn: string, now: int)
    requires Inv(u, s) && (s.input.state == Listening ==> Unused(s, turn))
    ensures var d, g := SpeechStart(u, s, generation, id, turn, now), Spoken(s, turn);
            if !s.input.active || s.input.state == Speaking then d == s
            else
              && Interrupted(s, g, turn) && g.log == s.log + Dropped(s) && g.books == s.books && g.pause == s.pause
              && g.generation == s.generation
              && if Pending(s) then
                   Confirms(g.(pause := g.pause.(resumed := true, id := LastName(s, generation, id))), d)
                 else if generation != "" && id != "" then
                   Suspicion(u, g, d, generation, id, s.input.state == Listening, now)
                 else d == g
  {
    hide SpecOk, ConfirmPause, TurnLogOk, ResponseOk, PromotedOk;
    assert s.input.active ==> s.input.realtime;
    if s.input.active && s.input.state != Speaking {
      SpokenOk(u, s, turn);
      SpeechShape(u, s, generation, id, turn, now);
      SpokenIs(s, turn);
      var g := Spoken(s, turn);
      hide Inv, Spoken, BeginPause, ConfirmPause, SpeechStart, Interrupted, Confirms, Suspicion;
      if Pending(g) {
        RenamedInv(u, g, Resumed(g, generation, id));
        ConfirmsExact(u, g.(pause := Resumed(g, generation, id)));
      } else {
        SuspicionExact(u, g, generation, id, s.input.state == Listening, now);
      }
    }
  }

  // Listening starts over in no turn, and nothing of the input is kept.
  function Silenced(i: Input): Input {
    i.(turn := "", buffer := [], state := Listening, epoch := i.epoch + 1, end := None, attempted := false,
       ready := false)
  }

  lemma DropIs(s: Session)
    ensures var d := DropAudio(InvalidateInput(s));
            && d == s.(input := Silenced(s.input).(turn := s.input.turn, state := s.input.state), spec := d.spec,
                       lo := |s.stream|, listen := |s.stream|, spoke := |s.stream|)
            && Drops(s, d)
  {
    InvalidateDrops(s, Invalidated);
    hide InvalidateSpeculation;
  }

  lemma DropsOf(s: Session, a: Session, b: Session)
    requires Drops(s, a) && b.spec == a.spec
    ensures Drops(s, b)
  {
  }

  // A noise that was no speech is forgotten, and releases an open pause; the end of
  // speech begins the silence the endpoint is looked for in.
  lemma EndSpeechDecides(u: Setup, s: Session, valid: bool, now: int)
    requires Inv(u, s)
    ensures var d := EndSpeech(u, s, valid, now);
            if !s.input.active || s.input.state != Speaking then d == s
            else if !valid && !s.input.hasSpeech then
              if Pending(s) then Recovers(s, d)
              else d == s.(input := Silenced(s.input), spec := d.spec, lo := |s.stream|, listen := |s.stream|,
                           spoke := |s.stream|) && Drops(s, d)
            else
              d == s.(input := s.input.(hasSpeech := true, end := Some(now), attempted := false, state := PossibleEnd),
                      pause := if !Pending(s) then s.pause
                               else s.pause.(revision := s.pause.revision + 1, notBefore := now + u.settle))
  {
    hide P.Core, PromotedOk, RecoverPause;
    assert s.input.active ==> s.input.realtime;
    hide Inv, InvalidateInput, DropAudio, RecoverPause, Recovers, Drops;
    if !s.input.active || s.input.state != Speaking {
    } else if valid || s.input.hasSpeech {
    } else if Pending(s) {
      RecoversExact(u, s);
    } else {
      DropIs(s);
      DropsOf(s, DropAudio(InvalidateInput(s)), EndSpeech(u, s, valid, now));
    }
  }

  lemma DropsTwice(a: Session, b: Session, c: Session)
    requires Drops(a, b) && Drops(b, c)
    ensures Drops(a, c)
  {
  }

  // Where input stands after whatever was pending is over.
  ghost predicate Freed(s: Session, d: Session) {
    && d.log == s.log + (if Pending(s) then [PauseRecovered(s.pause.id)] else [])
    && d.books.items == s.books.items && d.books.gen == s.books.gen && (d.books.live <==> s.books.live)
    && d.input.realtime == s.input.realtime && d.input.active == s.input.active && d.stream == s.stream
    && !Pending(d) && d.response == s.response && (Pending(s) ==> Unpaused(d.books))
  }

  lemma FreedExact(u: Setup, s: Session)
    requires Inv(u, s)
    ensures Freed(s, RecoverPause(s)) && (Pending(s) ==> Drops(s, RecoverPause(s)))
            && (!Pending(s) ==> RecoverPause(s) == s)
  {
    assert s.log + [] == s.log;
    if Pending(s) {
      RecoversExact(u, s);
      RecoverMode(u, s);
      InvalidateDrops(s, Invalidated);
    }
    hide Inv, RecoverPause, InvalidateSpeculation, Drops;
    if Pending(s) { DropsOf(s, InvalidateSpeculation(s, Invalidated), RecoverPause(s)); }
  }

  lemma RecoverMode(u: Setup, s: Session)
    requires Inv(u, s) && Pending(s)
    ensures var d := RecoverPause(s);
            d.input.realtime == s.input.realtime && d.input.active == s.input.active && d.stream == s.stream
              && d.books.gen == s.books.gen && s.books.live
  {
    assert s.pause.generation == s.books.gen && s.books.live;
    hide Inv;
    InvalidateDrops(Released(s), Invalidated);
    hide InvalidateSpeculation;
  }

  // Input that is cancelled leaves no turn, no work and no context, and an open
  // pause is released.
  lemma CancelInputDecides(u: Setup, s: Session, stop: bool)
    requires Inv(u, s) && s.input.realtime
    ensures var d := CancelInput(s, stop);
            && d.log == s.log + (if Pending(s) then [PauseRecovered(s.pause.id)] else []) + Dropped(s)
            && d.input.buffer == [] && !d.response.cancellable && d.stream == s.stream && d.listen == |s.stream|
            && d.input.turn == "" && d.input.end.None? && !d.input.ready && Drops(s, d)
            && (d.input.active <==> s.input.active && !stop)
            && d.input.state == (if stop || !s.input.active then Idle else Listening)
            && !Pending(d) && d.books.gen == s.books.gen && (d.books.live <==> s.books.live)
            && d.books.items == s.books.items && (Pending(s) ==> Unpaused(d.books))
  {
    var i := InvalidateSpeculation(s, Cancelled);
    InvalidateDrops(s, Cancelled);
    InvalidateSpeculationOk(u, s, Cancelled);
    FreedExact(u, i);
    var d := RecoverPause(i);
    hide Inv, InvalidateSpeculation, RecoverPause;
    InvalidateDrops(d, Invalidated);
    var r := ResetEndpoint(InvalidateSpeculation(d, Invalidated));
    CancelResponseIs(r);
    DropsOf(d, InvalidateSpeculation(d, Invalidated), CancelInput(s, stop));
    if Pending(s) { DropsTwice(s, i, d); } else { assert d == i; }
    DropsTwice(s, d, CancelInput(s, stop));
    hide CancelResponse, Drops;
  }

  lemma LegacyCancel(s: Session, stop: bool)
    requires !s.input.realtime
    ensures var d := CancelInput(s, stop);
            d.log == s.log + Dropped(s) && d.input == s.input.(buffer := [], active := false, state := Idle)
              && !d.response.cancellable && d.books == s.books && d.pause == s.pause && d.spec == s.spec
  {
    CancelResponseIs(s);
    hide CancelResponse;
  }

  // --- audio ------------------------------------------------------------------

  // While listening half a second is remembered; in a turn every byte is kept, up to
  // the limit, beyond which the input is over.
  lemma AudioDecides(u: Setup, s: Session, data: Bytes)
    requires Inv(u, s)
    ensures var d := AppendAudio(s, u, data);
            if !s.input.active || |data| % 2 != 0 || |data| > 16384 then d == s
            else if s.input.state == Listening then
              && d == s.(input := s.input.(buffer := d.input.buffer), stream := s.stream + data, lo := d.lo)
              && (if |s.input.buffer + data| <= 16000 then d.input.buffer == s.input.buffer + data
                  else |d.input.buffer| == 16000
                       && d.input.buffer == (s.input.buffer + data)[|s.input.buffer + data| - 16000..])
            else if |s.input.buffer| + |data| > u.maxTurnBytes then
              && d.stream == s.stream && !d.input.active && d.input.state == Idle && d.input.buffer == []
              && d.input.end.None? && !Pending(d)
              && (Pending(s) && !s.input.ready ==>
                    d.log == s.log + Dropped(s) + [PauseConfirmed(s.pause.id)] && d.books.gen == "")
              && d.books == (if Pending(s) then P.EndGeneration(s.books) else s.books)
              && (!Pending(s) ==> d.log == s.log)
            else
              d == s.(input := s.input.(buffer := s.input.buffer + data), stream := s.stream + data,
                      pause := if Pending(s) && s.input.state == Speaking
                               then s.pause.(samples := s.pause.samples + |data| / 2) else s.pause)
  {
    assert s.input.active ==> s.input.realtime;
    hide Inv, InvalidateInput, DropAudio, ConfirmPause, Confirms, Drops;
    if s.input.active && s.input.state != Listening && |s.input.buffer| + |data| > u.maxTurnBytes {
      OverLimit(u, s);
    }
  }

  lemma OverLimit(u: Setup, s: Session)
    requires Inv(u, s)
    ensures var d := DropAudio(InvalidateInput(ConfirmPause(s)));
            && d.stream == s.stream && d.input.buffer == [] && d.input.end.None? && !Pending(d)
            && (Pending(s) && !s.input.ready ==>
                  d.log == s.log + Dropped(s) + [PauseConfirmed(s.pause.id)] && d.books.gen == "")
            && d.books == (if Pending(s) then P.EndGeneration(s.books) else s.books)
            && (!Pending(s) ==> d.log == s.log)
  {
    DropIs(ConfirmPause(s));
    if Pending(s) {
      ConfirmsExact(u, s);
      ConfirmStream(s);
    } else {
      Unconfirmed(s);
    }
    hide Inv, ConfirmPause, InvalidateInput, DropAudio, Drops;
  }

  lemma Unconfirmed(s: Session)
    ensures !Pending(s) ==> ConfirmPause(s) == s
  {
  }

  lemma ConfirmStream(s: Session)
    ensures ConfirmPause(s).stream == s.stream
  {
    hide P.EndGeneration, MarkCommitted;
    MarkIs(Decided(s));
  }

  // Listening begins when nobody listens yet.
  lemma StartInputDecides(u: Setup, s: Session)
    requires Inv(u, s)
    ensures var d := StartInput(s);
            if s.input.active then d == s
            else
              && d == s.(input := Silenced(s.input).(turn := s.input.turn, active := true, realtime := true),
                         spec := d.spec, lo := |s.stream|, listen := |s.stream|, spoke := |s.stream|)
              && Drops(s, d)
  {
    assert !s.closed;
    hide Inv, InvalidateInput, DropAudio, Drops;
    if !s.input.active {
      DropIs(s);
      DropsOf(s, DropAudio(InvalidateInput(s)), StartInput(s));
    }
  }

  // --- the player -------------------------------------------------------------

  // New evidence counts for its own pause.
  lemma SemanticDecides(u: Setup, s: Session, generation: string, turn: string, id: string)
    requires Inv(u, s)
    ensures Semantic(u, s, generation, turn, id) ==
            if Pending(s) && generation == s.books.gen && turn == s.input.turn && id == s.pause.id
            then s.(pause := Reconsidered(u, s)) else s
  {
    assert Pending(s) ==> s.pause.turn == s.input.turn;
    hide Inv;
  }

  // A pause the player took tells where playing stopped, never back and never beyond
  // what was sent.
  lemma PausedDecides(u: Setup, s: Session, generation: string, id: string, frames: int)
    requires Inv(u, s)
    ensures var d := PlaybackPaused(s, generation, id, frames);
            if !Pending(s) || generation != s.books.gen || id != s.pause.id || s.books.timeline.None? || frames < 0
            then d == s
            else
              var t := s.books.timeline.value;
              var p := Max(t.played, Min(frames, t.sent));
              && d == s.(books := d.books) && d.books.gen == s.books.gen && (d.books.live <==> s.books.live)
              && d.books.items == C.Progress(s.books.items, s.books.gen, t.sent, p)
              && d.books.timeline == Some(t.(played := p, paused := true, pausePlayed := p))
  {
    assert s.books.timeline.Some? ==> 0 <= s.books.timeline.value.played <= s.books.timeline.value.sent;
    hide Inv, P.Sync, F.Acknowledged;
  }

  // A player that fails ends its generation, and confirms an open pause.
  lemma FailedDecides(u: Setup, s: Session, generation: string, id: string)
    requires Inv(u, s)
    ensures var d := PlaybackFailed(s, generation, id);
            if generation == "" || generation != s.books.gen
               || (id != "" && (s.pause.id != id || s.pause.generation != generation)) then d == s
            else if Pending(s) then Confirms(s, d)
            else d.log == s.log + Dropped(s) && d.books == P.EndGeneration(s.books) && d.books.gen == ""
                 && !d.books.live
                 && Unpaused(d.books) && d.input == s.input && d.spec == s.spec
  {
    if Pending(s) { ConfirmsExact(u, s); }
    CancelIs(u, s);
    hide Inv, ConfirmPause, Confirms, CancelGenerationLocked;
  }
}
