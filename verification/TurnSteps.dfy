// Every event of a live session keeps its invariant.
module TurnSteps {
  import opened Options
  import C = ConversationModel
  import P = Playback
  import opened TurnModel
  import opened TurnInvariant

  // --- committing a turn ------------------------------------------------------

  lemma MarkCommittedOk(u: Setup, s: Session)
    requires Inv(u, s)
    ensures Inv(u, MarkCommitted(s)) && MarkCommitted(s) == s.(spec := MarkCommitted(s).spec)
  {
    if Markable(s) {
      var k := s.spec.current.value;
      assert SpecOk(u, s.spec, s.ids, s.books.gen, s.generation.request);
      assert WorkOk(u, s.spec.works[k], s.books.gen, s.generation.request);
      hide Inv;
      SetWorkOk(u, s, k, s.spec.works[k].(committed := true, state := Committed));
    }
  }

  lemma FreshResponse(s: Session, r: Response)
    requires ResponseOk(s.response, s.contexts, s.log) && !s.response.cancellable
    requires r == Response(s.contexts + 1, true, true, r.turn, false)
    ensures ResponseOk(r, s.contexts + 1, s.log)
    ensures forall i | 0 <= i < |s.log| && s.log[i].TurnCommitted? :: s.log[i].ctx != r.ctx
  {}

  lemma NewResponseOk(u: Setup, s: Session, turn: string)
    requires Inv(u, s) && turn in s.ids && turn !in s.spent && (Mid(s.input.state) ==> s.input.turn != turn)
    ensures Inv(u, NewResponse(s, turn))
    ensures var d := NewResponse(s, turn);
            && d == s.(contexts := s.contexts + 1, response := Response(s.contexts + 1, true, true, turn, false),
                       log := d.log)
            && (d.log == s.log || d.log == s.log + [ResponseDropped(s.response.ctx)])
            && (forall i | 0 <= i < |d.log| && d.log[i].TurnCommitted? :: d.log[i].ctx != d.response.ctx)
  {
    hide P.BooksOk, InputOk, AudioOk, CommitsOk, PauseOk, IssuedOk, TurnLogOk, SpecOk, PromotedOk, ResponseOk;
    CancelResponseOk(u, s);
    FreshResponse(CancelResponse(s), Response(s.contexts + 1, true, true, turn, false));
  }

  lemma CommitsEntry(log: seq<Entry>, stream: Bytes, listen: nat, e: Entry)
    requires e.TurnCommitted? && e.listen == listen && CommitsOk(log, stream, listen) && CommitOk(e, stream, |stream|)
    ensures CommitsOk(log + [e], stream, |stream|)
  {}

  lemma ResponseEntry(r: Response, contexts: nat, log: seq<Entry>, e: Entry)
    requires ResponseOk(r, contexts, log) && e.TurnCommitted? && e.ctx == contexts
    requires forall i | 0 <= i < |log| && log[i].TurnCommitted? :: log[i].ctx != e.ctx
    ensures ResponseOk(r, contexts, log + [e])
  {}

  lemma TurnLogEntry(log: seq<Entry>, ids: set<string>, spent: set<string>, e: Entry)
    requires TurnLogOk(log, ids, spent, "", Listening) && e.TurnCommitted? && e.turn in ids
    requires forall i | 0 <= i < |log| && log[i].TurnCommitted? :: log[i].turn != e.turn
    ensures TurnLogOk(log + [e], ids, spent, "", Listening)
  {}

  // The committed turn's audio is the buffer; its turn and its context are new.
  lemma CommitEntryOk(u: Setup, s: Session, q: Session, key: Option<Key>)
    requires Inv(u, s) && Mid(s.input.state) && s.input.buffer != []
    requires Inv(u, q) && q.stream == s.stream && q.ids == s.ids && q.spent == s.spent && q.input.turn == ""
             && q.input.state == Listening
    requires q.listen == |s.stream| && q.response.ctx == q.contexts != 0
    requires q.log == s.log || q.log == s.log + [ResponseDropped(s.response.ctx)]
    requires forall i | 0 <= i < |q.log| && q.log[i].TurnCommitted? :: q.log[i].ctx != q.response.ctx
    ensures Inv(u, Note(q, TurnCommitted(s.input.turn, q.response.ctx, s.lo, |s.stream|, s.listen, s.spoke,
                                         s.input.buffer, key)))
  {
    var e := TurnCommitted(s.input.turn, q.response.ctx, s.lo, |s.stream|, s.listen, s.spoke, s.input.buffer, key);
    hide P.BooksOk, InputOk, AudioOk, CommitsOk, PauseOk, IssuedOk, TurnLogOk, SpecOk, PromotedOk, ResponseOk, TurnsOk,
         CommitOk;
    CommitFacts(s, q, e);
    if q.log != s.log { CommitsAppend(s.log, s.stream, s.listen, ResponseDropped(s.response.ctx)); }
    CommitsEntry(q.log, s.stream, s.listen, e);
    ResponseEntry(q.response, q.contexts, q.log, e);
    TurnLogEntry(q.log, q.ids, q.spent, e);
    PromotedAppend(q.log, q.spec.works, e);
  }

  lemma CommitFacts(s: Session, q: Session, e: Entry)
    requires Mid(s.input.state) && s.input.buffer != [] && e.TurnCommitted?
    requires e.turn == s.input.turn && e.lo == s.lo && e.hi == |s.stream| && e.listen == s.listen && e.spoke == s.spoke
             && e.audio == s.input.buffer
    requires AudioOk(s.input.state, s.input.buffer, s.stream, s.lo, s.listen, s.spoke)
    requires TurnsOk(s.ids, s.spent, s.input.turn, s.input.state, s.response)
    requires TurnLogOk(s.log, s.ids, s.spent, s.input.turn, s.input.state)
    requires q.log == s.log || q.log == s.log + [ResponseDropped(s.response.ctx)]
    ensures CommitOk(e, s.stream, |s.stream|) && e.turn in s.ids
    ensures forall i | 0 <= i < |q.log| && q.log[i].TurnCommitted? :: q.log[i].turn != e.turn
  {}

  // Committing: refused while a pause is undecided, otherwise the turn's audio
  // leaves whole and listening starts over.
  lemma CommitTurnOk(u: Setup, s: Session)
    requires Inv(u, s) && s.input.end.Some?
    ensures Inv(u, CommitTurn(s))
    ensures Pending(CommitTurn(s)) <==> Pending(s)
  {
    assert Mid(s.input.state);
    if Pending(s) {
      hide Inv;
      EndpointOk(u, s, s.input.(ready := true));
    } else {
      var m := MarkCommitted(s);
      MarkCommittedOk(u, s);
      var i := m.input.(epoch := m.input.epoch + 1, end := None, attempted := false, ready := false, buffer := [],
                        state := Listening);
      hide Inv, MarkCommitted, MarkedKey;
      if s.input.buffer == [] {
        ListenOk(u, m, i);
      } else {
        CommitFull(u, s, m, i.(turn := ""));
      }
    }
  }

  lemma CommitFull(u: Setup, s: Session, m: Session, i: Input)
    requires Inv(u, s) && !Pending(s) && Mid(s.input.state) && s.input.buffer != []
    requires Inv(u, m) && m == s.(spec := m.spec) && m == MarkCommitted(s)
    requires i == m.input.(epoch := m.input.epoch + 1, end := None, attempted := false, ready := false, buffer := [],
                           state := Listening, turn := "")
    ensures Inv(u, CommitTurn(s)) && !Pending(CommitTurn(s))
  {
    var q := DropAudio(m).(input := i);
    assert InputOk(i) by { assert InputOk(s.input); }
    assert s.input.turn in s.ids && s.input.turn !in s.spent;
    hide Inv, MarkCommitted, MarkedKey, InputOk, NewResponse, CommitTurn;
    ListenOk(u, m, i);
    var n := NewResponse(q, s.input.turn);
    NewResponseOk(u, q, s.input.turn);
    CommitEntryOk(u, s, n, MarkedKey(s));
    var e := TurnCommitted(s.input.turn, n.response.ctx, s.lo, |s.stream|, s.listen, s.spoke, s.input.buffer,
                           MarkedKey(s));
    CommitShape(s, m, n);
  }

  lemma CommitShape(s: Session, m: Session, n: Session)
    requires !Pending(s) && s.input.buffer != [] && m == s.(spec := m.spec) && m == MarkCommitted(s)
    requires var i := m.input.(epoch := m.input.epoch + 1, end := None, attempted := false, ready := false,
                               buffer := [], state := Listening, turn := "");
             n == NewResponse(DropAudio(m).(input := i), s.input.turn)
    ensures CommitTurn(s) == Note(n, TurnCommitted(s.input.turn, n.response.ctx, s.lo, |s.stream|, s.listen, s.spoke,
                                                   s.input.buffer, MarkedKey(s)))
  {
    hide MarkCommitted, MarkedKey;
  }

  // --- pauses ----------------------------------------------------------------

  // A live session never meets the stale-generation guards.
  lemma GuardsUnreachable(u: Setup, s: Session)
    requires Inv(u, s) && Pending(s)
    ensures s.pause.generation == s.books.gen && s.books.gen != "" && s.books.live
    ensures Mid(s.input.state) && s.pause.turn == s.input.turn
  {}

  lemma InputShape(u: Setup, s: Session)
    requires Inv(u, s)
    ensures InputOk(s.input) && (Mid(s.input.state) || s.input.state == Listening <==> s.input.active)
  {}

  lemma ConfirmPauseOk(u: Setup, s: Session)
    requires Inv(u, s)
    ensures Inv(u, ConfirmPause(s)) && !Pending(ConfirmPause(s))
    ensures !Pending(s) ==> ConfirmPause(s) == s
  {
    if Pending(s) {
      GuardsUnreachable(u, s);
      assert s.input.ready ==> s.input.end.Some? by { assert InputOk(s.input); }
      hide Inv;
      CancelGenerationOk(u, s);
      var d := CancelGenerationLocked(s);
      var p := d.pause.(state := Confirmed);
      hide CancelGenerationLocked, CommitTurn;
      PauseFieldsOk(u, d, p);
      PlainNote(u, d.(pause := p), PauseConfirmed(d.pause.id));
      var e := Note(d.(pause := p), PauseConfirmed(d.pause.id));
      if s.input.ready { CommitTurnOk(u, e); }
    }
  }

  lemma TimelineSame(b: P.Books, paused: bool)
    ensures P.PauseTimeline(b, paused).items == b.items && P.PauseTimeline(b, paused).gen == b.gen
    ensures P.PauseTimeline(b, paused).live == b.live
    ensures P.PauseTimeline(b, paused).timeline.Some? ==> P.PauseTimeline(b, paused).timeline.value.paused == paused
  {}

  // Closing a pause unpauses the timeline, opening one pauses it.
  lemma PauseSwitchOk(u: Setup, s: Session, p: Pause)
    requires Inv(u, s)
    requires p.state == Paused ==>
               s.books.gen != "" && p.generation == s.books.gen && Mid(s.input.state) && p.turn == s.input.turn
    ensures Inv(u, s.(pause := p, books := P.PauseTimeline(s.books, p.state == Paused)))
  {
    hide P.BooksOk, InputOk, AudioOk, CommitsOk, ResponseOk, IssuedOk, TurnsOk, TurnLogOk, SpecOk, PromotedOk,
         P.PauseTimeline;
    P.PauseTimelineOk(u.conversation, s.books, p.state == Paused);
    TimelineSame(s.books, p.state == Paused);
  }

  // The input of a session that goes back to listening.
  function Relisten(i: Input, turn: string, hasSpeech: bool): Input {
    i.(epoch := i.epoch + 1, end := None, attempted := false, ready := false, buffer := [], turn := turn,
       hasSpeech := hasSpeech, state := Listening)
  }

  lemma RelistenOk(u: Setup, s: Session, turn: string, hasSpeech: bool)
    requires Inv(u, s) && !Pending(s) && s.input.active && (turn == "" || turn == s.input.turn)
    ensures Inv(u, DropAudio(InvalidateSpeculation(s, Invalidated)).(input := Relisten(s.input, turn, hasSpeech)))
  {
    assert InputOk(Relisten(s.input, turn, hasSpeech)) by { assert InputOk(s.input); }
    hide Inv, InputOk;
    InvalidateSpeculationOk(u, s, Invalidated);
    ListenOk(u, InvalidateSpeculation(s, Invalidated), Relisten(s.input, turn, hasSpeech));
  }

  lemma InvalidateKeeps(s: Session, state: WorkState)
    ensures InvalidateSpeculation(s, state) == s.(spec := InvalidateSpeculation(s, state).spec)
  {}

  lemma RecoverShape(s: Session)
    requires Pending(s) && s.pause.generation == s.books.gen && s.books.live
    ensures RecoverPause(s) == DropAudio(InvalidateSpeculation(Released(s), Invalidated)).(input := Relisten(s.input,
        "", false))
    ensures RecoverPause(s).pause.state == Recovered
  {
    hide P.PauseTimeline, InvalidateSpeculation;
    InvalidateKeeps(Released(s), Invalidated);
  }

  lemma RecoverPauseOk(u: Setup, s: Session)
    requires Inv(u, s)
    ensures Inv(u, RecoverPause(s)) && !Pending(RecoverPause(s))
    ensures !Pending(s) ==> RecoverPause(s) == s
    ensures Pending(s) ==> RecoverPause(s).input == Relisten(s.input, "", false)
  {
    if Pending(s) {
      GuardsUnreachable(u, s);
      InputShape(u, s);
      var e := Released(s);
      hide Inv, P.PauseTimeline, InvalidateSpeculation, DropAudio;
      PauseSwitchOk(u, s, s.pause.(revision := s.pause.revision + 1, state := Recovered));
      PlainNote(u, Unnoted(s), PauseRecovered(s.pause.id));
      RelistenOk(u, e, "", false);
      RecoverShape(s);
    }
  }

  lemma OpenPauseOk(u: Setup, s: Session, generation: string, id: string, opening: bool, now: int)
    requires Inv(u, s) && !Pending(s) && generation == s.books.gen && generation != "" && Mid(s.input.state)
    ensures Inv(u, OpenPause(u, s, generation, id, opening, now))
  {
    var r := s.pause.revision + 1;
    var p := Pause(Paused, id, generation, s.input.turn, now, r, 0, if opening then now + u.sustain else now, !opening,
                   0);
    hide Inv, P.PauseTimeline;
    if Recoverable(s) {
      PauseSwitchOk(u, s, p);
      PlainNote(u, s.(pause := p, books := P.PauseTimeline(s.books, true)), Suspected(id));
    } else {
      ClosedFieldsOk(u, s, p.(state := Recovered));
    }
  }

  lemma ClosedFieldsOk(u: Setup, s: Session, p: Pause)
    requires Inv(u, s) && s.pause.state != Paused && p.state != Paused
    ensures Inv(u, s.(pause := p))
  {
    hide P.BooksOk, InputOk, AudioOk, CommitsOk, ResponseOk, IssuedOk, TurnsOk, TurnLogOk, SpecOk, PromotedOk;
  }

  lemma BeginPauseOk(u: Setup, s: Session, generation: string, id: string, opening: bool, now: int)
    requires Inv(u, s)
    ensures Inv(u, BeginPause(u, s, generation, id, opening, now))
  {
    hide Inv;
    if Pending(s) { GuardsUnreachable(u, s); }
    hide Inv, OpenPause, ConfirmPause;
    if Pending(s) {
      var p := s.pause.(id := id, resumed := true);
      PauseFieldsOk(u, s, p);
      ConfirmPauseOk(u, s.(pause := p));
    } else if generation == s.books.gen && generation != "" && MidTurn(s.input) {
      OpenPauseOk(u, s, generation, id, opening, now);
    }
  }

  lemma PauseChangedOk(u: Setup, s: Session)
    requires Inv(u, s)
    ensures Inv(u, PauseChanged(u, s)) && PauseChanged(u, s) == s.(pause := PauseChanged(u, s).pause)
    ensures Pending(PauseChanged(u, s)) <==> Pending(s)
  {
    hide Inv;
    if Pending(s) { PauseFieldsOk(u, s, PauseChanged(u, s).pause); }
  }

  // --- input events ----------------------------------------------------------

  lemma StartInputOk(u: Setup, s: Session)
    requires Inv(u, s)
    ensures Inv(u, StartInput(s))
  {
    hide P.Core;
    if !s.input.active {
      assert s.input.state == Idle && !Pending(s);
      var i := s.input.(epoch := s.input.epoch + 1, end := None, attempted := false, ready := false, buffer := [],
                        active := true, realtime := true, state := Listening);
      hide Inv;
      InvalidateSpeculationOk(u, s, Invalidated);
      ListenOk(u, InvalidateSpeculation(s, Invalidated), i);
      assert StartInput(s) == DropAudio(InvalidateSpeculation(s, Invalidated)).(input := i);
    }
  }

  // Speech opens a turn, or resumes the one whose end was in doubt.
  lemma SpeakOk(u: Setup, s: Session, i: Input, turn: string)
    requires Inv(u, s) && s.input.active && s.input.state != Speaking
    requires i.buffer == s.input.buffer && i.state == Speaking && InputOk(i)
    requires s.input.state == Listening ==> Unused(s, turn) && i.turn == turn
    requires s.input.state != Listening ==> i.turn == s.input.turn
    ensures s.input.state == Listening ==> Inv(u, s.(input := i, ids := s.ids + {turn}, spoke := |s.stream|))
    ensures s.input.state != Listening ==> Inv(u, s.(input := i))
  {
    if s.input.state == Listening {
      assert !Pending(s) && "" !in s.ids && s.spent <= s.ids;
      hide P.BooksOk, InputOk, CommitsOk, PauseOk, ResponseOk, SpecOk, PromotedOk, IssuedOk, TurnsOk, TurnLogOk;
      SpecMoreIds(u, s.spec, s.ids, s.ids + {turn}, s.books.gen, s.generation.request);
      NewTurn(s, turn);
      PauseNewTurn(s, turn);
    } else {
      hide Inv;
      assert Mid(s.input.state) by { assert Inv(u, s); InputShape(u, s); }
      MidTurnOk(u, s, i);
    }
  }

  lemma NewTurn(s: Session, turn: string)
    requires IssuedOk(s.books.items, s.books.gen, s.ids, s.spent) && Unused(s, turn)
    requires TurnsOk(s.ids, s.spent, s.input.turn, s.input.state, s.response)
    requires TurnLogOk(s.log, s.ids, s.spent, s.input.turn, s.input.state)
    ensures IssuedOk(s.books.items, s.books.gen, s.ids + {turn}, s.spent)
    ensures TurnsOk(s.ids + {turn}, s.spent, turn, Speaking, s.response)
    ensures TurnLogOk(s.log, s.ids + {turn}, s.spent, turn, Speaking)
  {}

  lemma PauseNewTurn(s: Session, turn: string)
    requires PauseOk(s.pause, s.books.gen, s.books.live, s.books.timeline, s.input.state, s.input.turn) && !Pending(s)
    ensures PauseOk(s.pause, s.books.gen, s.books.live, s.books.timeline, Speaking, turn)
  {}

  // The state a speech start decides pauses in.
  function Spoken(s: Session, turn: string): Session {
    var d := CancelResponse(s);
    var opening := d.input.state == Listening;
    var e := if opening then d.(input := d.input.(turn := turn, hasSpeech := false), ids := d.ids + {turn},
                                spoke := |d.stream|) else d;
    var f := InvalidateInput(e);
    f.(input := f.input.(state := Speaking))
  }

  lemma SpokenShape(s: Session, turn: string, e: Session)
    requires var d := CancelResponse(s);
             var r := d.input.(epoch := d.input.epoch + 1, end := None, attempted := false, ready := false,
                               state := Speaking);
             e == if d.input.state == Listening
                  then d.(input := r.(turn := turn, hasSpeech := false), ids := d.ids + {turn}, spoke := |d.stream|)
                  else d.(input := r)
    ensures Spoken(s, turn) == InvalidateSpeculation(e, Invalidated)
    ensures Spoken(s, turn).input == e.input && Spoken(s, turn).pause == s.pause
  {
    var d := CancelResponse(s);
    assert d.pause == s.pause && d.spec == s.spec;
    hide CancelResponse, Ended;
  }

  lemma SpokenOk(u: Setup, s: Session, turn: string)
    requires Inv(u, s) && s.input.active && s.input.state != Speaking
             && (s.input.state == Listening ==> Unused(s, turn))
    ensures Inv(u, Spoken(s, turn)) && Spoken(s, turn).input.state == Speaking && Spoken(s, turn).pause == s.pause
  {
    InputShape(u, s);
    CancelResponseOk(u, s);
    var d := CancelResponse(s);
    var r := d.input.(epoch := d.input.epoch + 1, end := None, attempted := false, ready := false, state := Speaking);
    var i := if d.input.state == Listening then r.(turn := turn, hasSpeech := false) else r;
    hide Inv, CancelResponse, InvalidateSpeculation;
    SpeakOk(u, d, i, turn);
    var e := if d.input.state == Listening then d.(input := i, ids := d.ids + {turn}, spoke := |d.stream|)
             else d.(input := i);
    InvalidateSpeculationOk(u, e, Invalidated);
    SpokenShape(s, turn, e);
  }

  function Resumed(g: Session, generation: string, id: string): Pause {
    g.pause.(resumed := true, id := if generation == g.books.gen && id != "" then id else g.pause.id)
  }

  lemma SpeechShape(u: Setup, s: Session, generation: string, id: string, turn: string, now: int)
    requires Hearing(s) && s.input.state != Speaking
    ensures SpeechStart(u, s, generation, id, turn, now) ==
            var g := Spoken(s, turn);
            if Pending(g) then ConfirmPause(g.(pause := Resumed(g, generation, id)))
            else if generation != "" && id != "" then BeginPause(u, g, generation, id, s.input.state == Listening, now)
            else g
  {
    hide BeginPause, ConfirmPause, InvalidateInput;
  }

  lemma SpeechKeeps(u: Setup, s: Session, generation: string, id: string, turn: string, now: int)
    requires !Hearing(s) || s.input.state == Speaking
    ensures SpeechStart(u, s, generation, id, turn, now) == s
  {}

  lemma CancelKeepsInput(s: Session)
    ensures CancelResponse(s).input == s.input && CancelResponse(s).pause == s.pause
            && CancelResponse(s).books == s.books
  {}

  lemma SpeculationKeeps(u: Setup, s: Session, id: string, now: int)
    ensures StartSpeculation(u, s, id, now).input == s.input && StartSpeculation(u, s, id, now).log == s.log
  {}

  lemma StartKeepsLog(u: Setup, s: Session, turn: string, textOnly: bool, item: string, gen: string)
    requires s.books.items != []
    ensures StartGenerationLocked(u, s, turn, textOnly, item, gen).log == s.log
  {}

  lemma ResponseKeepsSpec(u: Setup, s: Session, ctx: nat, text: C.Text, user: string, item: string, gen: string)
    requires s.books.items != []
    ensures BeginResponse(u, s, ctx, text, false, user, item, gen).spec == s.spec
  {
    hide P.FinalizeCurrent, C.CommitUser, C.Context, P.BeginGeneration;
  }

  lemma LimitKeeps(c: C.Config, items: seq<C.Item>, user: string, turn: string, text: C.Text)
    requires items != []
    ensures C.CommitUser(c, items, user, turn, text).1 == C.Limit ==>
            C.CommitUser(c, items, user, turn, text).0 == items
  {}

  lemma RecoverKeepsMode(s: Session)
    ensures RecoverPause(s).input.realtime == s.input.realtime
    ensures !Pending(s) ==> RecoverPause(s) == s
  {}

  lemma SpeechStartOk(u: Setup, s: Session, generation: string, id: string, turn: string, now: int)
    requires Inv(u, s) && (s.input.state == Listening ==> Unused(s, turn))
    ensures Inv(u, SpeechStart(u, s, generation, id, turn, now))
  {
    if Hearing(s) && s.input.state != Speaking {
      SpokenOk(u, s, turn);
      SpeechShape(u, s, generation, id, turn, now);
      var g := Spoken(s, turn);
      hide Inv, Spoken, BeginPause, ConfirmPause, SpeechStart;
      if Pending(g) {
        var p := Resumed(g, generation, id);
        PauseFieldsOk(u, g, p);
        ConfirmPauseOk(u, g.(pause := p));
      } else {
        BeginPauseOk(u, g, generation, id, s.input.state == Listening, now);
      }
    }
  }
}
