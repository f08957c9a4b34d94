// The session object: its fields are changed step by step inside each locked
// section, and every section computes the function the invariants are about.
module Session {
  import opened Arithmetic
  import opened Options
  import C = ConversationModel
  import F = Flow
  import P = Playback
  import L = SessionBooks
  import M = TurnModel
  import TurnSteps
  import E = TurnEvents
  import R = TurnRuns
  import opened TurnModel

  // d: the state after the user's text was offered to the store.
  lemma CommitsBy(u: Setup, s: M.Session, ctx: nat, text: C.Text, textOnly: bool, user: string, item: string,
      gen: string, d: M.Session, accepted: bool)
    requires s.books.items != [] && P.FinalizeCurrent(s.books).items != [] && d.books.items != []
    requires var b := P.FinalizeCurrent(s.books);
             var r := C.CommitUser(u.conversation, b.items, user, s.response.turn, text);
      && accepted == (r.1 != C.Limit)
      && d == if !accepted then s.(books := b)
              else s.(books := b.(items := r.0), response := s.response.(used := true), ids := s.ids + {user},
                      spent := s.spent + {s.response.turn})
    ensures var request := C.Context(u.conversation, d.books.items, []);
      && (CommitsText(u, s, text, user) <==> accepted && request.Some?)
      && CommitResponse(u, s, ctx, text, textOnly, user, item, gen)
         == if accepted && request.Some? then OpenAnswer(u, d, ctx, textOnly, item, gen, request.value) else d
  {
    hide P.FinalizeCurrent, C.CommitUser, OpenAnswer, C.Context;
  }

  class RealtimeSession {
    const setup: Setup
    const ledger: L.Ledger
    var closed: bool
    var generation: Generation
    var response: Response
    var input: Input
    var pause: Pause
    var spec: Speculation
    var contexts: nat
    // History: what was issued, heard and decided.
    ghost var ids: set<string>
    ghost var spent: set<string>
    ghost var stream: Bytes
    ghost var lo: nat
    ghost var listen: nat
    ghost var spoke: nat
    ghost var log: seq<Entry>
    ghost var left: map<string, int>
    ghost var granted: int

    ghost function Repr(): set<object>
      reads this, ledger
    {
      {this} + ledger.Repr()
    }

    ghost function State(): M.Session
      reads Repr()
    {
      M.Session(closed, ledger.View(), generation, response, input, pause, spec, ids, spent, contexts, stream, lo,
                listen, spoke, log, left, granted)
    }

    ghost predicate Valid()
      reads Repr()
    {
      ledger.conversation.items != [] && ledger.conversation.config == setup.conversation
    }

    constructor (setup: Setup, systemItem: string)
      ensures Valid() && State() == Initial(setup, systemItem) && this.setup == setup
      ensures fresh(Repr())
      ensures C.ValidConfig(setup.conversation) && systemItem != "" ==> Upheld()
    {
      this.setup := setup;
      ledger := new L.Ledger(setup.conversation, systemItem);
      closed, contexts := false, 0;
      generation := Generation(false, false, []);
      response := Response(0, false, false, "", false);
      input := Input(false, false, [], Idle, "", 0, None, false, false, false);
      pause := Pause(NoPause, "", "", "", 0, 0, 0, 0, false, 0);
      spec := Speculation([], None, false, None, "", 0);
      ids, spent, stream, lo, listen, spoke, log, left, granted := {systemItem}, {}, [], 0, 0, 0, [], map[], 0;
      new;
      if C.ValidConfig(setup.conversation) && systemItem != "" { R.InitialOk(setup, systemItem); }
    }

    // What a session keeps through every event of its life.
    ghost predicate Upheld()
      reads Repr()
    {
      Valid() && C.ValidConfig(setup.conversation) && R.Sound(setup, State())
    }

    predicate Pausing()
      reads this`pause
    {
      pause.state == Paused
    }

    // --- small locked helpers ------------------------------------------------

    method CancelResponseLocked()
      modifies this`response, this`log
      ensures State() == CancelResponse(old(State()))
    {
      if response.cancellable {
        log := log + [ResponseDropped(response.ctx)];
        response := response.(live := false, cancellable := false);
      }
    }

    method NewInputResponseContext(turn: string) returns (ctx: nat)
      modifies this`response, this`log, this`contexts
      ensures State() == NewResponse(old(State()), turn)
      ensures ctx == response.ctx == contexts
    {
      CancelResponseLocked();
      contexts := contexts + 1;
      response := Response(contexts, !closed, true, turn, false);
      ctx := contexts;
    }

    method EndSpeculation(k: nat, state: WorkState)
      requires k < |spec.works|
      modifies this`spec
      ensures State() == SetWork(old(State()), k, Ended(old(spec.works[k]), state))
    {
      var w := spec.works[k];
      if w.state == Invalidated || w.state == Cancelled {
        assert spec.works[k := w] == spec.works;
        return;
      }
      w := w.(state := state, live := false, result := None, deltas := [], bytes := 0);
      spec := spec.(works := spec.works[k := w]);
    }

    method InvalidateSpeculationLocked(state: WorkState)
      modifies this`spec
      ensures State() == InvalidateSpeculation(old(State()), state)
    {
      if spec.current.None? || spec.current.value >= |spec.works| { return; }
      var k := spec.current.value;
      if spec.works[k].state != Promoted { EndSpeculation(k, state); }
    }

    method ResetEndpointLocked()
      modifies this`input
      ensures State() == ResetEndpoint(old(State()))
    {
      input := input.(epoch := input.epoch + 1, end := None, attempted := false, ready := false);
    }

    method InvalidateInputLocked()
      modifies this`input, this`spec
      ensures State() == InvalidateInput(old(State()))
    {
      InvalidateSpeculationLocked(Invalidated);
      ResetEndpointLocked();
    }

    method DropAudioLocked()
      modifies this`input, this`lo, this`listen, this`spoke
      ensures State() == DropAudio(old(State()))
    {
      hide P.PlaybackTimeline.View, F.FlowController.State;
      input := input.(buffer := []);
      lo, listen, spoke := |stream|, |stream|, |stream|;
    }

    method InvalidateInterruption()
      modifies this`pause
      ensures State() == InvalidatePause(old(State()))
    {
      pause := pause.(revision := pause.revision + 1, state := NoPause);
    }

    method CancelGenerationSection()
      requires Valid()
      modifies Repr()
      ensures Valid() && Repr() == old(Repr()) && State() == CancelGenerationLocked(old(State()))
    {
      hide P.EndGeneration, CancelResponse;
      ledger.EndGeneration();
      InvalidateInterruption();
      CancelResponseLocked();
    }

    method ForgetOutput(turn: string, textOnly: bool, item: string, gen: string)
      modifies this`generation, this`ids, this`spent, this`pause
      ensures State() == InvalidatePause(old(State()).(generation := Generation(false, textOnly, []),
                                                       ids := old(ids) + {item, gen}, spent := old(spent) + {turn}))
    {
      generation := Generation(false, textOnly, []);
      ids, spent := ids + {item, gen}, spent + {turn};
      InvalidateInterruption();
    }

    method StartGenerationSection(turn: string, textOnly: bool, item: string, gen: string)
      requires Valid()
      modifies Repr()
      ensures Valid() && fresh(Repr() - old(Repr()))
              && State() == StartGenerationLocked(setup, old(State()), turn, textOnly, item, gen)
    {
      hide P.BeginGeneration;
      if closed { return; }
      ledger.BeginGeneration(item, turn, gen, textOnly);
      ForgetOutput(turn, textOnly, item, gen);
    }

    // --- committing a turn ---------------------------------------------------

    predicate ValidSpeculation(k: nat)
      requires k < |spec.works|
      reads this, ledger
    {
      var w := spec.works[k];
      if w.state == Promoted then w.live && !closed && w.generation == ledger.gen && ledger.live
      else
        && spec.current == Some(k) && w.live && !closed
        && (w.committed || (input.turn == w.key.turn && input.epoch == w.key.revision))
    }

    method MarkSpeculation() returns (key: Option<Key>)
      modifies this`spec
      ensures State() == MarkCommitted(old(State())) && key == MarkedKey(old(State()))
    {
      key := None;
      if spec.current.Some? && spec.current.value < |spec.works| {
        var k := spec.current.value;
        var w := spec.works[k];
        if ValidSpeculation(k) && !w.committed {
          key := Some(w.key);
          spec := spec.(works := spec.works[k := w.(committed := true, state := Committed)]);
        }
      }
    }

    // The turn's audio is handed over whole, in a context of its own.
    method PublishTurn(key: Option<Key>)
      modifies this
      ensures var r := NewResponse(old(State()), old(input.turn));
              var e := Note(r, TurnCommitted(r.input.turn, r.response.ctx, r.lo, |r.stream|, r.listen, r.spoke,
                                             r.input.buffer, key));
              State() == DropAudio(e.(input := e.input.(turn := "", state := Listening)))
    {
      hide NewResponse;
      var ctx := NewInputResponseContext(input.turn);
      log := log + [TurnCommitted(input.turn, ctx, lo, |stream|, listen, spoke, input.buffer, key)];
      input := input.(turn := "", state := Listening);
      DropAudioLocked();
    }

    method CommitTurnLocked()
      modifies this
      ensures State() == CommitTurn(old(State()))
    {
      hide MarkCommitted, MarkedKey, NewResponse, DropAudio;
      if Pausing() {
        input := input.(ready := true);
        return;
      }
      var key := MarkSpeculation();
      ResetEndpointLocked();
      if |input.buffer| == 0 {
        input := input.(state := Listening);
        DropAudioLocked();
      } else {
        PublishTurn(key);
      }
    }

    // --- deciding a pause ----------------------------------------------------

    method ConfirmInterruptionLocked()
      requires Valid()
      modifies Repr()
      ensures Valid() && Repr() == old(Repr()) && State() == ConfirmPause(old(State()))
    {
      hide CancelGenerationLocked, CommitTurn;
      if !Pausing() { return; }
      if pause.generation != ledger.gen {
        InvalidateInterruption();
        return;
      }
      CancelGenerationSection();
      pause := pause.(state := Confirmed);
      log := log + [PauseConfirmed(pause.id)];
      if input.ready { CommitTurnLocked(); }
    }

    // Listening starts over with an empty buffer.
    method ListenAgain(turn: string, hasSpeech: bool)
      modifies this`input, this`spec, this`lo, this`listen, this`spoke
      ensures var d := DropAudio(InvalidateInput(old(State())));
              State() == d.(input := d.input.(turn := turn, hasSpeech := hasSpeech, state := Listening))
    {
      hide InvalidateInput;
      InvalidateInputLocked();
      DropAudioLocked();
      input := input.(turn := turn, hasSpeech := hasSpeech, state := Listening);
    }

    method ReleasePause()
      requires Valid()
      modifies this`pause, this`log, ledger.timeline
      ensures Valid() && Repr() == old(Repr()) && State() == Released(old(State()))
    {
      hide P.PauseTimeline;
      pause := pause.(revision := pause.revision + 1, state := Recovered);
      ledger.PauseTimeline(false);
      log := log + [PauseRecovered(pause.id)];
    }

    method RecoverInterruptionLocked()
      requires Valid()
      modifies Repr()
      ensures Valid() && Repr() == old(Repr()) && State() == RecoverPause(old(State()))
    {
      hide InvalidateInput, DropAudio, Released;
      if !Pausing() { return; }
      if ledger.gen != pause.generation || !ledger.live {
        InvalidateInterruption();
        return;
      }
      ReleasePause();
      ListenAgain("", false);
    }

    method OutputRecoverable() returns (ok: bool)
      ensures ok == Recoverable(State())
    {
      if ledger.gen == "" || !ledger.live { return false; }
      return !generation.done || (ledger.timeline != null && ledger.timeline.sent > ledger.timeline.played);
    }

    method NewPause(gen: string, id: string, opening: bool, now: int)
      modifies this`pause
      ensures State() == Opened(setup, old(State()), gen, id, opening, now)
    {
      InvalidateInterruption();
      pause := Pause(Paused, id, gen, input.turn, now, pause.revision, 0, if opening then now + setup.sustain else now,
                     !opening, 0);
    }

    method OpenInterruption(gen: string, id: string, opening: bool, now: int)
      requires Valid()
      modifies Repr()
      ensures Valid() && Repr() == old(Repr()) && State() == OpenPause(setup, old(State()), gen, id, opening, now)
    {
      hide P.PauseTimeline, Recoverable, Opened;
      NewPause(gen, id, opening, now);
      var ok := OutputRecoverable();
      if ok {
        ledger.PauseTimeline(true);
        log := log + [Suspected(id)];
      } else {
        pause := pause.(state := Recovered);
      }
    }

    method BeginInterruptionLocked(gen: string, id: string, opening: bool, now: int)
      requires Valid()
      modifies Repr()
      ensures Valid() && Repr() == old(Repr()) && State() == BeginPause(setup, old(State()), gen, id, opening, now)
    {
      hide OpenPause, ConfirmPause;
      if closed || !setup.interruption || !input.active || !input.realtime { return; }
      if gen == "" || id == "" || |id| > 128 { return; }
      if gen != ledger.gen { return; }
      if input.state != Speaking && input.state != PossibleEnd && input.state != Waiting { return; }
      if Pausing() && pause.generation == gen {
        if pause.id == id { return; }
        pause := pause.(id := id, resumed := true);
        ConfirmInterruptionLocked();
        return;
      }
      OpenInterruption(gen, id, opening, now);
    }

    method InterruptionChangedLocked()
      modifies this`pause
      ensures State() == PauseChanged(setup, old(State()))
    {
      if !Pausing() { return; }
      pause := pause.(revision := pause.revision + 1,
                      notBefore := (if input.end.Some? then input.end.value else 0) + setup.settle);
    }

    // --- input ---------------------------------------------------------------

    method StartRealtimeInput()
      requires Valid()
      modifies this
      ensures Valid() && Repr() == old(Repr()) && State() == StartInput(old(State()))
    {
      if closed || input.active { return; }
      InvalidateInputLocked();
      DropAudioLocked();
      input := input.(active := true, realtime := true, state := Listening);
    }

    method NameTurn(turn: string)
      modifies this`input, this`ids, this`spoke
      ensures State() == old(State()).(input := old(input).(turn := turn, hasSpeech := false), ids := old(ids) + {turn},
                                       spoke := |old(stream)|)
    {
      hide P.PlaybackTimeline.View, F.FlowController.State;
      input := input.(turn := turn, hasSpeech := false);
      ids, spoke := ids + {turn}, |stream|;
    }

    // Speech opens a turn, or resumes the one whose end was in doubt.
    method OpenTurn(turn: string) returns (opening: bool)
      modifies this`response, this`log, this`input, this`spec, this`ids, this`spoke
      ensures State() == TurnSteps.Spoken(old(State()), turn) && opening == (old(input.state) == Listening)
    {
      hide CancelResponse, InvalidateInput;
      CancelResponseLocked();
      TurnSteps.CancelKeepsInput(old(State()));
      opening := input.state == Listening;
      if opening { NameTurn(turn); }
      InvalidateInputLocked();
      input := input.(state := Speaking);
    }

    method SpeechStartWithInterruption(gen: string, id: string, turn: string, now: int)
      requires Valid()
      modifies Repr()
      ensures Valid() && Repr() == old(Repr()) && State() == SpeechStart(setup, old(State()), gen, id, turn, now)
    {
      hide SpeechStart, TurnSteps.Spoken, BeginPause, ConfirmPause;
      if !input.active || !input.realtime || input.state == Speaking {
        TurnSteps.SpeechKeeps(setup, State(), gen, id, turn, now);
        return;
      }
      TurnSteps.SpeechShape(setup, State(), gen, id, turn, now);
      var opening := OpenTurn(turn);
      if Pausing() {
        pause := pause.(resumed := true, id := if gen == ledger.gen && id != "" then id else pause.id);
        ConfirmInterruptionLocked();
      } else if gen != "" && id != "" {
        BeginInterruptionLocked(gen, id, opening, now);
      }
    }

    method EndSpeechSection(valid: bool, now: int)
      requires Valid()
      modifies Repr()
      ensures Valid() && Repr() == old(Repr()) && State() == EndSpeech(setup, old(State()), valid, now)
    {
      hide RecoverPause, InvalidateSpeculation, PauseChanged;
      if !input.active || !input.realtime { return; }
      if input.state != Speaking { return; }
      if !valid && !input.hasSpeech {
        if Pausing() {
          RecoverInterruptionLocked();
          return;
        }
        TurnSteps.InvalidateKeeps(State(), Invalidated);
        ListenAgain("", input.hasSpeech);
        return;
      }
      input := input.(hasSpeech := input.hasSpeech || valid, end := Some(now));
      InterruptionChangedLocked();
      input := input.(attempted := false, state := PossibleEnd);
    }

    method StopListening(stop: bool)
      requires input.realtime
      modifies this
      ensures var d := DropAudio(CancelResponse(InvalidateInput(old(State()))));
              State() == d.(input := d.input.(turn := "", active := d.input.active && !stop,
                                              state := if stop || !d.input.active then Idle else Listening))
    {
      hide InvalidateInput, CancelResponse;
      InvalidateInputLocked();
      CancelResponseLocked();
      DropAudioLocked();
      input := input.(turn := "", state := if stop || !input.active then Idle else Listening,
                      active := input.active && !stop);
    }

    method CancelInputSection(stop: bool)
      requires Valid()
      modifies Repr()
      ensures Valid() && Repr() == old(Repr()) && State() == CancelInput(old(State()), stop)
    {
      hide RecoverPause, InvalidateSpeculation, CancelResponse, InvalidateInput, DropAudio;
      if !input.realtime {
        CancelResponseLocked();
        DropAudioLocked();
        input := input.(active := false, state := Idle);
        return;
      }
      InvalidateSpeculationLocked(Cancelled);
      RecoverInterruptionLocked();
      TurnSteps.RecoverKeepsMode(InvalidateSpeculation(old(State()), Cancelled));
      TurnSteps.InvalidateKeeps(old(State()), Cancelled);
      StopListening(stop);
    }

    // While listening only the newest pre-roll is kept.
    method KeepPreRoll(data: Bytes)
      modifies this`input, this`lo, this`stream
      ensures State() == old(State()).(input := old(input).(buffer := Last(old(input).buffer + data, PRE_ROLL)),
                                       stream := old(stream) + data,
                                       lo := Max(old(lo), |old(stream)| + |data| - PRE_ROLL))
    {
      var kept, added := input.buffer, data;
      if |data| >= PRE_ROLL {
        kept, added := [], data[|data| - PRE_ROLL..];
      } else if |kept| + |data| > PRE_ROLL {
        kept := kept[|kept| + |data| - PRE_ROLL..];
      }
      assert kept + added == Last(input.buffer + data, PRE_ROLL);
      input := input.(buffer := kept + added);
      lo := Max(lo, |stream| + |data| - PRE_ROLL);
      stream := stream + data;
    }

    method ExceedTurn()
      requires Valid()
      modifies Repr()
      ensures Valid() && Repr() == old(Repr())
      ensures var d := DropAudio(InvalidateInput(ConfirmPause(old(State()))));
              State() == d.(input := d.input.(active := false, state := Idle))
    {
      hide ConfirmPause, InvalidateInput, DropAudio;
      ConfirmInterruptionLocked();
      InvalidateInputLocked();
      DropAudioLocked();
      input := input.(active := false, state := Idle);
    }

    method KeepTurnAudio(data: Bytes)
      modifies this`input, this`pause, this`stream
      ensures State() == old(State()).(
                input := old(input).(buffer := old(input).buffer + data), stream := old(stream) + data,
                pause := if old(Pausing()) && old(input).state == Speaking
                         then old(pause).(samples := old(pause).samples + |data| / 2) else old(pause))
    {
      hide P.PlaybackTimeline.View, F.FlowController.State;
      if Pausing() && input.state == Speaking { pause := pause.(samples := pause.samples + |data| / 2); }
      input := input.(buffer := input.buffer + data);
      stream := stream + data;
    }

    method AppendRealtimeAudio(data: Bytes) returns (ok: bool)
      requires Valid()
      modifies Repr()
      ensures Valid() && Repr() == old(Repr()) && State() == AppendAudio(old(State()), setup, data)
      ensures ok <==> old(Hearing(State())) && |data| % 2 == 0 && |data| <= 16384
                      && (old(input.state) == Listening || |old(input.buffer)| + |data| <= setup.maxTurnBytes)
    {
      hide ConfirmPause, InvalidateInput, DropAudio, Last, P.PlaybackTimeline.View, F.FlowController.State;
      if !input.active || !input.realtime || |data| % 2 != 0 || |data| > 16384 { return false; }
      if input.state == Listening {
        KeepPreRoll(data);
        return true;
      }
      if |input.buffer| + |data| > setup.maxTurnBytes {
        ExceedTurn();
        return false;
      }
      KeepTurnAudio(data);
      return true;
    }

    // --- the endpoint loop ---------------------------------------------------

    method StartSpeculationLocked(id: string, now: int)
      modifies this`spec, this`ids
      ensures State() == StartSpeculation(setup, old(State()), id, now)
    {
      hide P.PlaybackTimeline.View, F.FlowController.State;
      if !setup.speculation || closed || !input.hasSpeech || |input.buffer| == 0 { return; }
      if spec.current.Some? && spec.current.value < |spec.works| {
        var key := spec.works[spec.current.value].key;
        if key.turn == input.turn && key.revision == input.epoch { return; }
      }
      if spec.attemptTurn != input.turn { spec := spec.(attemptTurn := input.turn, attempts := 0); }
      if spec.busy || Cooling(setup, spec, now) || spec.attempts >= setup.maxAttempts { return; }
      if Pausing() && pause.samples < 12800 { return; }
      var w := Work(Key(id, input.turn, input.epoch), Running, true, false, false, AtStt, None, [], [], 0, None, "",
                    false, now, [], []);
      spec := spec.(works := spec.works + [w], current := Some(|spec.works|), busy := true, lastAttempt := Some(now),
                    attempts := spec.attempts + 1);
      ids := ids + {id};
    }

    // At most one classifier runs, once per revision and not before its evidence is in.
    method PrepareInterruption(idle: bool, now: int) returns (launch: bool)
      requires Valid()
      modifies Repr()
      ensures Valid() && Repr() == old(Repr()) && State() == CheckPause(setup, old(State()), idle, now)
      ensures launch ==> idle && Pending(State()) && now < pause.started + setup.decisionWindow
    {
      hide ConfirmPause;
      if !Pausing() { return false; }
      if now >= pause.started + setup.decisionWindow {
        ConfirmInterruptionLocked();
        return false;
      }
      if !idle || pause.attempted == pause.revision || now < pause.notBefore { return false; }
      pause := pause.(attempted := pause.revision);
      return true;
    }

    // One pass of the input loop.
    method PollInput(free: bool, idle: bool, id: string, now: int)
      requires Valid()
      modifies Repr()
      ensures Valid() && Repr() == old(Repr()) && State() == Poll(setup, old(State()), free, idle, id, now)
    {
      hide CheckPause, CheckEndpoint;
      if closed {
        InvalidateInterruption();
        return;
      }
      var _ := PrepareInterruption(idle, now);
      if input.end.Some? { WatchEndpoint(free, id, now); }
    }

    method WatchEndpoint(free: bool, id: string, now: int)
      requires input.end.Some?
      modifies this
      ensures State() == CheckEndpoint(setup, old(State()), free, id, now)
    {
      hide CommitTurn, StartSpeculation, P.PlaybackTimeline.View, F.FlowController.State;
      if input.ready { return; }
      if now >= input.end.value + setup.maxDelay {
        CommitTurnLocked();
        return;
      }
      if input.attempted || !free || now < input.end.value + setup.minDelay { return; }
      input := input.(attempted := true, state := Waiting);
      TurnSteps.SpeculationKeeps(setup, State(), id, now);
      StartSpeculationLocked(id, now);
      log := log + [DetectorLaunched(input.epoch, input.end.value, input.turn)];
    }

    method ApplyDetection(epoch: nat, result: Detection)
      modifies this
      ensures State() == DetectorResult(setup, old(State()), epoch, result)
    {
      hide CommitTurn, InvalidateSpeculation, PauseChanged;
      if epoch != input.epoch || input.end.None? || closed { return; }
      if !result.DetectorFailed? { InterruptionChangedLocked(); }
      match result {
        case DetectorFailed => InvalidateSpeculationLocked(Invalidated);
        case Complete => CommitTurnLocked();
        case Continuation =>
          InvalidateSpeculationLocked(Invalidated);
          input := input.(state := Waiting);
      }
    }

    method ApplyClassification(revision: nat, id: string, result: Classification, now: int)
      requires Valid()
      modifies Repr()
      ensures Valid() && Repr() == old(Repr())
              && State() == ClassifierResult(setup, old(State()), revision, id, result, now)
    {
      hide ConfirmPause, RecoverPause;
      if !Pausing() || closed { return; }
      if id != pause.id || revision != pause.revision || pause.generation != ledger.gen { return; }
      if now >= pause.started + setup.decisionWindow {
        ConfirmInterruptionLocked();
        return;
      }
      match result {
        case Ambiguous =>
        case ClassifierFailed => ConfirmInterruptionLocked();
        case Interruption => ConfirmInterruptionLocked();
        case _ =>
          if input.state == Speaking || pause.resumed {
            ConfirmInterruptionLocked();
          } else {
            RecoverInterruptionLocked();
          }
      }
    }

    method SupplySemantic(gen: string, turn: string, id: string)
      modifies this`pause
      ensures State() == Semantic(setup, old(State()), gen, turn, id)
    {
      hide PauseChanged;
      if !Pausing() || gen != ledger.gen || turn != pause.turn || id != pause.id { return; }
      InterruptionChangedLocked();
    }

    // --- playback ------------------------------------------------------------

    method PlaybackPausedSection(gen: string, id: string, frames: int)
      requires Valid()
      modifies Repr()
      ensures Valid() && Repr() == old(Repr()) && State() == PlaybackPaused(old(State()), gen, id, frames)
    {
      hide P.RecordSource, P.PauseTimeline;
      if !Pausing() || gen != ledger.gen || id != pause.id || ledger.timeline == null || frames < 0 { return; }
      var _ := ledger.RecordSource(frames);
      ledger.PauseTimeline(true);
    }

    method PlaybackFailedSection(gen: string, id: string)
      requires Valid()
      modifies Repr()
      ensures Valid() && Repr() == old(Repr()) && State() == PlaybackFailed(old(State()), gen, id)
    {
      hide ConfirmPause, CancelGenerationLocked;
      if gen == "" || gen != ledger.gen { return; }
      if id != "" && (pause.id != id || pause.generation != gen) { return; }
      if Pausing() { ConfirmInterruptionLocked(); } else { CancelGenerationSection(); }
    }

    // --- generations ---------------------------------------------------------

    method StartGenerationMode(turn: string, textOnly: bool, item: string, gen: string)
      requires Valid()
      modifies Repr()
      ensures Valid() && fresh(Repr() - old(Repr()))
              && State() == StartGeneration(setup, old(State()), turn, textOnly, item, gen)
    {
      hide InvalidateSpeculation, CancelResponse, StartGenerationLocked, L.Ledger.View;
      InvalidateSpeculationLocked(Invalidated);
      CancelResponseLocked();
      ids := ids + {turn};
      StartGenerationSection(turn, textOnly, item, gen);
    }

    method CancelGenerationID(id: string)
      requires Valid()
      modifies Repr()
      ensures Valid() && Repr() == old(Repr()) && State() == CancelGeneration(old(State()), id)
    {
      hide InvalidateSpeculation, CancelGenerationLocked;
      if id != "" && id != ledger.gen { return; }
      InvalidateSpeculationLocked(Cancelled);
      CancelGenerationSection();
    }

    method MarkGenerationDone(id: string) returns (marked: bool)
      requires Valid()
      modifies Repr()
      ensures Valid() && Repr() == old(Repr()) && State() == MarkDone(old(State()), id)
      ensures marked <==> old(P.Active(ledger.View(), id)) && !old(generation.done)
    {
      hide P.AudioDone;
      if id == "" || id != ledger.gen || !ledger.live || generation.done { return false; }
      generation := generation.(done := true);
      ledger.MarkAudioDone();
      return true;
    }

    method NewTextResponseContext(turn: string) returns (ok: bool)
      modifies this
      ensures State() == NewTextTurn(old(State()), turn) && ok == !old(input.active)
    {
      hide InvalidateSpeculation, NewResponse;
      if input.active { return false; }
      InvalidateSpeculationLocked(Invalidated);
      var _ := NewInputResponseContext(turn);
      ids := ids + {turn};
      return true;
    }

    predicate UsableContext(ctx: nat)
      reads this
    {
      ctx != 0 && ctx == response.ctx && response.live && !closed && !response.used
    }

    method OpenAnswerSection(ctx: nat, textOnly: bool, item: string, gen: string, request: seq<C.Message>)
      requires Valid()
      modifies Repr()
      ensures Valid() && fresh(Repr() - old(Repr()))
      ensures State() == OpenAnswer(setup, old(State()), ctx, textOnly, item, gen, request)
    {
      hide StartGenerationLocked;
      ghost var turn := response.turn;
      TurnSteps.StartKeepsLog(setup, State(), turn, textOnly, item, gen);
      StartGenerationSection(response.turn, textOnly, item, gen);
      generation := generation.(request := request);
      log := log + [GenerationBegun(ctx, turn, gen)];
    }

    method SpendTurn(user: string)
      modifies this`response, this`ids, this`spent
      ensures State() == old(State()).(response := old(response).(used := true), ids := old(ids) + {user},
                                       spent := old(spent) + {old(response).turn})
    {
      hide P.PlaybackTimeline.View, F.FlowController.State;
      response := response.(used := true);
      ids, spent := ids + {user}, spent + {response.turn};
    }

    // The open answer is settled and the user's text enters history.
    method CommitText(text: C.Text, user: string) returns (accepted: bool)
      requires Valid()
      modifies Repr()
      ensures Valid() && Repr() == old(Repr())
      ensures var s := old(State());
              var b := P.FinalizeCurrent(s.books);
              b.items != []
              && var (items, outcome) := C.CommitUser(setup.conversation, b.items, user, s.response.turn, text);
                 && accepted == (outcome != C.Limit)
                 && State() == if !accepted then s.(books := b)
                               else s.(books := b.(items := items), response := s.response.(used := true),
                                       ids := s.ids + {user}, spent := s.spent + {s.response.turn})
    {
      hide P.FinalizeCurrent, C.CommitUser, P.PlaybackTimeline.View, F.FlowController.State;
      ledger.FinalizeCurrent();
      TurnSteps.LimitKeeps(setup.conversation, ledger.conversation.items, user, response.turn, text);
      var outcome := ledger.conversation.CommitUser(user, response.turn, text);
      if outcome == C.Limit { return false; }
      SpendTurn(user);
      return true;
    }

    // The answer is asked for with the history as it now stands.
    method RequestAnswer(ctx: nat, textOnly: bool, item: string, gen: string) returns (begun: bool)
      requires Valid() && C.ValidConfig(setup.conversation)
      modifies Repr()
      ensures Valid() && fresh(Repr() - old(Repr()))
      ensures var s := old(State()); var request := C.Context(setup.conversation, s.books.items, []);
              && begun == request.Some?
              && State() == if begun then OpenAnswer(setup, s, ctx, textOnly, item, gen, request.value) else s
    {
      hide OpenAnswer, C.Context, C.ValidConfig, P.PlaybackTimeline.View, F.FlowController.State;
      var request := ledger.conversation.Context([]);
      if request.None? { return false; }
      OpenAnswerSection(ctx, textOnly, item, gen, request.value);
      return true;
    }

    method CommitResponseSection(ctx: nat, text: C.Text, textOnly: bool, user: string, item: string, gen: string)
        returns (begun: bool)
      requires Valid() && C.ValidConfig(setup.conversation)
      modifies Repr()
      ensures Valid() && fresh(Repr() - old(Repr()))
      ensures State() == CommitResponse(setup, old(State()), ctx, text, textOnly, user, item, gen)
      ensures begun == CommitsText(setup, old(State()), text, user)
    {
      hide P.FinalizeCurrent, C.CommitUser, OpenAnswer, C.Context, C.ValidConfig, CommitResponse, CommitsText,
        P.PlaybackTimeline.View, F.FlowController.State;
      ghost var before := State();
      var accepted := CommitText(text, user);
      CommitsBy(setup, before, ctx, text, textOnly, user, item, gen, State(), accepted);
      if !accepted { return false; }
      begun := RequestAnswer(ctx, textOnly, item, gen);
    }

    method BeginConversationResponse(ctx: nat, text: C.Text, textOnly: bool, user: string, item: string, gen: string)
        returns (begun: bool)
      requires Valid() && C.ValidConfig(setup.conversation)
      modifies Repr()
      ensures Valid() && fresh(Repr() - old(Repr()))
      ensures State() == BeginResponse(setup, old(State()), ctx, text, textOnly, user, item, gen)
      ensures begun == Begins(setup, old(State()), ctx, text, user)
    {
      hide CommitResponse, CommitsText, C.Window, C.ValidConfig;
      if !UsableContext(ctx) { return false; }
      if setup.conversation.blank(text) {
        response := response.(used := true);
        return false;
      }
      var peek := ledger.conversation.Context(text);
      if peek.None? { return false; }
      begun := CommitResponseSection(ctx, text, textOnly, user, item, gen);
    }

    // --- the speculative worker ----------------------------------------------

    method SetWorkLocked(k: nat, w: Work)
      requires k < |spec.works|
      modifies this`spec
      ensures State() == SetWork(old(State()), k, w)
    {
      spec := spec.(works := spec.works[k := w]);
    }

    method SpeculationHeard(k: nat, text: Option<C.Text>)
      requires Valid() && C.ValidConfig(setup.conversation) && At(State(), k, AtStt)
      modifies this`spec
      ensures State() == SttResult(setup, old(State()), k, text)
    {
      hide C.Window, C.ValidConfig;
      var w := spec.works[k];
      if ValidSpeculation(k) {
        if text.None? || |text.value| > setup.maxTranscriptBytes {
          w := Ended(w, Cancelled);
        } else if setup.conversation.blank(text.value) {
          w := w.(result := Some([]), ready := true, terminal := Some(true),
                  state := if w.committed then w.state else Ready);
        } else {
          var request := ledger.conversation.Context(text.value);
          if request.Some? {
            SetWorkLocked(k, w.(result := text, request := request.value, phase := AtModel));
            return;
          }
          w := Ended(w.(result := text), Cancelled);
        }
      }
      SetWorkLocked(k, w.(phase := Leaving));
    }

    method SpeculationAnswered(k: nat, ok: bool)
      requires At(State(), k, AtModel)
      modifies this`spec
      ensures State() == ModelResult(old(State()), k, ok)
    {
      var w := spec.works[k];
      if !ValidSpeculation(k) {
        w := w.(phase := Leaving);
      } else if !ok {
        w := Ended(w, Cancelled).(phase := Leaving);
      } else {
        w := w.(ready := true, state := if w.committed then w.state else Ready, phase := AtStream);
      }
      SetWorkLocked(k, w);
    }

    // Buffer a delta if there is room; only adopted work may wait for room.
    method BufferDelta(k: nat, text: C.Text)
      requires k < |spec.works|
      modifies this`spec
      ensures State() == Offer(setup, old(State()), k, text)
    {
      var w := spec.works[k];
      if w.bytes + |text| > setup.maxDeltaBytes || |w.deltas| >= 1024 {
        if w.state == Promoted && |text| > setup.maxDeltaBytes {
          w := w.(terminal := Some(false), phase := Leaving);
        } else if w.state != Promoted {
          w := Ended(w, Cancelled).(phase := Leaving);
        } else {
          w := w.(phase := Holding(text));
        }
      } else {
        w := w.(deltas := w.deltas + [text], bytes := w.bytes + |text|, produced := w.produced + [text],
                phase := AtStream);
      }
      SetWorkLocked(k, w);
    }

    method ReceiveDelta(k: nat, text: C.Text)
      requires At(State(), k, AtStream)
      modifies this`spec
      ensures State() == StreamDelta(setup, old(State()), k, text)
    {
      hide Offer;
      if !ValidSpeculation(k) {
        SetWorkLocked(k, spec.works[k].(phase := Leaving));
      } else if text != [] {
        BufferDelta(k, text);
      }
    }

    method RetryDelta(k: nat)
      requires k < |spec.works| && spec.works[k].phase.Holding?
      modifies this`spec
      ensures State() == Retry(setup, old(State()), k)
    {
      hide Offer;
      if !ValidSpeculation(k) {
        SetWorkLocked(k, spec.works[k].(phase := Leaving));
      } else {
        BufferDelta(k, spec.works[k].phase.text);
      }
    }

    method StreamFinished(k: nat, eof: bool)
      requires At(State(), k, AtStream)
      modifies this`spec
      ensures State() == StreamEnd(old(State()), k, eof)
    {
      var w := spec.works[k];
      if ValidSpeculation(k) {
        if !eof && w.state != Promoted { w := Ended(w, Cancelled); } else { w := w.(terminal := Some(eof)); }
      }
      SetWorkLocked(k, w.(phase := Leaving));
    }

    method WorkerExit(k: nat)
      requires At(State(), k, Leaving)
      modifies this`spec
      ensures State() == WorkerGone(old(State()), k)
    {
      SetWorkLocked(k, spec.works[k].(phase := Gone));
      spec := spec.(busy := false);
    }

    method SpeculationTimeout(k: nat)
      requires k < |spec.works|
      modifies this`spec
      ensures State() == WorkTimeout(old(State()), k)
    {
      if spec.current == Some(k) && spec.works[k].live && spec.works[k].state != Promoted {
        EndSpeculation(k, Cancelled);
      }
    }

    // --- promotion -----------------------------------------------------------

    // One look of the promotion loop, under the same lock as every other section.
    method PromoteSpeculation(ctx: nat, key: Key, user: string, item: string, gen: string, now: int)
      requires Valid() && C.ValidConfig(setup.conversation)
      modifies Repr()
      ensures Valid() && fresh(Repr() - old(Repr()))
      ensures State() == Promote(setup, old(State()), ctx, key, user, item, gen, now)
    {
      hide Adopt, Ended, C.ValidConfig;
      if !setup.speculation || !UsableContext(ctx) || spec.current.None? || spec.current.value >= |spec.works| {
        return;
      }
      var k := spec.current.value;
      var w := spec.works[k];
      if w.key != key || !w.committed || w.state == Promoted { return; }
      if !ValidSpeculation(k) { return; }
      if now >= w.started + setup.timeout {
        EndSpeculation(k, Cancelled);
        return;
      }
      if !w.ready || w.result.None? { return; }
      AdoptSpeculation(k, ctx, user, item, gen);
    }

    method AdoptSpeculation(k: nat, ctx: nat, user: string, item: string, gen: string)
      requires Valid() && C.ValidConfig(setup.conversation) && k < |spec.works| && spec.works[k].result.Some?
      modifies Repr()
      ensures Valid() && fresh(Repr() - old(Repr()))
      ensures State() == Adopt(setup, old(State()), k, ctx, user, item, gen)
    {
      hide BeginResponse, Begins, Ended, C.ValidConfig;
      var w := spec.works[k];
      if w.result.value == [] {
        response := response.(used := true);
        SetWorkLocked(k, w.(state := Promoted, generation := ""));
        log := log + [WorkPromoted(k, ctx, "")];
        return;
      }
      TurnSteps.ResponseKeepsSpec(setup, State(), ctx, w.result.value, user, item, gen);
      var begun := BeginConversationResponse(ctx, w.result.value, false, user, item, gen);
      if !begun {
        SetWorkLocked(k, Ended(w, Cancelled));
        return;
      }
      FinishAdoption(k, ctx, gen);
    }

    // The work now belongs to its generation; an answer to superseded history is dropped.
    method FinishAdoption(k: nat, ctx: nat, gen: string)
      requires k < |spec.works|
      modifies this`spec, this`log
      ensures var s := old(State()); var w := s.spec.works[k];
              var v := w.(state := Promoted, generation := gen, adopted := w.request == s.generation.request);
              State() == Note(SetWork(s, k, if v.adopted then v else v.(live := false, deltas := [], bytes := 0)),
                              WorkPromoted(k, ctx, gen))
    {
      var w := spec.works[k];
      w := w.(state := Promoted, generation := gen, adopted := w.request == generation.request);
      if !w.adopted { w := w.(live := false, deltas := [], bytes := 0); }
      SetWorkLocked(k, w);
      log := log + [WorkPromoted(k, ctx, gen)];
    }

    // The adopted stream's reader.
    method ReceiveAdopted(k: nat) returns (delta: Option<C.Text>)
      requires k < |spec.works|
      modifies this`spec
      ensures State() == ReadDelta(old(State()), k)
      ensures delta.Some? ==> State().spec.works[k].delivered == old(spec.works[k]).delivered + [delta.value]
      ensures delta.None? ==> State() == old(State())
    {
      var w := spec.works[k];
      if !w.adopted || !ValidSpeculation(k) || ledger.gen != w.generation || w.deltas == [] { return None; }
      var text := w.deltas[0];
      SetWorkLocked(k, w.(deltas := w.deltas[1..], bytes := if w.bytes >= |text| then w.bytes - |text| else 0,
                          delivered := w.delivered + [text]));
      return Some(text);
    }

    method CloseAdopted(k: nat)
      requires k < |spec.works|
      modifies this`spec
      ensures State() == CloseStream(old(State()), k)
    {
      SetWorkLocked(k, spec.works[k].(live := false, deltas := [], bytes := 0, result := None));
    }

    method GenerationEnded(k: nat)
      requires k < |spec.works|
      modifies this`spec
      ensures State() == GenerationGone(old(State()), k)
    {
      var w := spec.works[k];
      if w.state == Promoted && !(ledger.live && w.generation == ledger.gen) { SetWorkLocked(k, w.(live := false)); }
    }

    method CloseSession()
      requires Valid()
      modifies this, ledger
      ensures Valid() && Repr() == old(Repr()) && State() == Close(old(State()))
    {
      closed := true;
      ledger.live := false;
      response := response.(live := false);
    }

    // --- one event of a session's life ---------------------------------------

    method HandleBooks(e: E.BookEvent)
      requires Valid()
      modifies Repr()
      ensures Valid() && fresh(Repr() - old(Repr()))
      ensures State() == E.KeepBooks(setup, old(State()), e)
    {
      hide E.Keep, E.Owed, E.Granted;
      ghost var b := ledger.View();
      HandleLedger(e);
      left, granted := E.Owed(setup, b, left, e), E.Granted(b, granted, e);
    }

    method HandleLedger(e: E.BookEvent)
      requires Valid()
      modifies ledger.Repr()
      ensures Valid() && fresh(ledger.Repr() - old(ledger.Repr()))
      ensures ledger.View() == E.Keep(setup, old(ledger.View()), e)
    {
      hide P.RequireCredit, P.Reserve, P.AppendText, P.TextDone, P.RegisterSpeech, P.OpenFlow,
           P.RecordSent, P.UpdateCredit, P.RecordPosition, P.PlaybackTimeline.View, F.FlowController.State;
      match e {
        case TextEvent(id, text, sent) => var _ := ledger.AppendText(id, text, sent);
        case TextDoneEvent(id) => ledger.MarkTextDone(id);
        case RegisterEvent(id, sequence, text, rate, channels, frames) =>
          var _ := ledger.RegisterSpeech(id, sequence, text, rate, channels, frames);
        case RequireEvent => var _ := ledger.RequireAudioCredit();
        case FlowEvent(id, rate) => var _ := ledger.OpenFlow(id, rate);
        case ReserveEvent(requested) => ledger.Reserve(requested);
        case SentEvent(id, frames) => ledger.RecordSent(id, frames);
        case CreditEvent(id, credit) => var _ := ledger.UpdateCredit(id, credit);
        case PositionEvent(id, frames) => var _ := ledger.RecordPosition(id, frames);
      }
    }

    method HandleSpeech(e: R.Event)
      requires Valid() && R.Enabled(State(), e)
      requires R.OfInput(e)
      modifies Repr()
      ensures Valid() && Repr() == old(Repr()) && State() == R.InputNext(setup, old(State()), e)
    {
      hide StartInput, SpeechStart, EndSpeech, CancelInput, AppendAudio;
      match e {
        case StartInputEvent => StartRealtimeInput();
        case SpeechStartEvent(gen, id, turn, now) => SpeechStartWithInterruption(gen, id, turn, now);
        case EndSpeechEvent(valid, now) => EndSpeechSection(valid, now);
        case CancelInputEvent(stop) => CancelInputSection(stop);
        case AudioEvent(data) => var _ := AppendRealtimeAudio(data);
      }
    }

    method HandleEndpoint(e: R.Event)
      requires Valid() && R.Enabled(State(), e)
      requires R.OfEndpoint(e)
      modifies Repr()
      ensures Valid() && Repr() == old(Repr()) && State() == R.EndpointNext(setup, old(State()), e)
    {
      hide Poll, DetectorResult, ClassifierResult;
      match e {
        case PollEvent(free, idle, id, now) => PollInput(free, idle, id, now);
        case DetectorEvent(epoch, detection) => ApplyDetection(epoch, detection);
        case ClassifierEvent(revision, id, decision, now) => ApplyClassification(revision, id, decision, now);
      }
    }

    method HandlePlayback(e: R.Event)
      requires Valid() && R.Enabled(State(), e)
      requires R.OfPlayback(e)
      modifies Repr()
      ensures Valid() && fresh(Repr() - old(Repr())) && State() == R.PlaybackNext(setup, old(State()), e)
    {
      hide BeginPause, Semantic, PlaybackPaused, PlaybackFailed, E.KeepBooks, L.Ledger.View, E.Writes, R.Enabled,
           L.Ledger.Repr;
      match e {
        case BeginPauseEvent(gen, id, now) => BeginInterruptionLocked(gen, id, false, now);
        case SemanticEvent(gen, turn, id) => SupplySemantic(gen, turn, id);
        case PausedEvent(gen, id, frames) => PlaybackPausedSection(gen, id, frames);
        case FailedEvent(gen, id) => PlaybackFailedSection(gen, id);
        case BooksEvent(event) => HandleBooks(event);
      }
    }

    method HandleResponse(e: R.Event)
      requires Valid() && C.ValidConfig(setup.conversation) && R.Enabled(State(), e)
      requires R.OfAnswer(e)
      modifies Repr()
      ensures Valid() && fresh(Repr() - old(Repr())) && State() == R.AnswerNext(setup, old(State()), e)
    {
      hide StartGeneration, CancelGeneration, MarkDone, NewTextTurn, BeginResponse, C.ValidConfig, L.Ledger.View,
           C.FindUser;
      match e {
        case StartGenerationEvent(turn, textOnly, item, gen) => StartGenerationMode(turn, textOnly, item, gen);
        case CancelEvent(id) => CancelGenerationID(id);
        case MarkDoneEvent(id) => var _ := MarkGenerationDone(id);
        case TextTurnEvent(turn) => var _ := NewTextResponseContext(turn);
        case ResponseEvent(ctx, text, textOnly, user, item, gen) =>
          var _ := BeginConversationResponse(ctx, text, textOnly, user, item, gen);
      }
    }

    method HandleWorker(e: R.Event)
      requires Valid() && C.ValidConfig(setup.conversation) && R.Enabled(State(), e)
      requires R.OfWorker(e)
      modifies Repr()
      ensures Valid() && Repr() == old(Repr()) && State() == R.WorkerNext(setup, old(State()), e)
    {
      hide SttResult, ModelResult, StreamDelta, StreamEnd, Retry, WorkerGone, WorkTimeout, C.ValidConfig,
           L.Ledger.View, L.Ledger.Repr;
      match e {
        case SttEvent(k, text) => SpeculationHeard(k, text);
        case ModelEvent(k, ok) => SpeculationAnswered(k, ok);
        case DeltaEvent(k, text) => ReceiveDelta(k, text);
        case StreamEndEvent(k, eof) => StreamFinished(k, eof);
        case RetryEvent(k) => RetryDelta(k);
        case GoneEvent(k) => WorkerExit(k);
        case TimeoutEvent(k) => SpeculationTimeout(k);
      }
    }

    method HandlePromotion(e: R.Event)
      requires Valid() && C.ValidConfig(setup.conversation) && R.Enabled(State(), e)
      requires e.PromoteEvent?
      modifies Repr()
      ensures Valid() && fresh(Repr() - old(Repr())) && State() == R.AdoptionNext(setup, old(State()), e)
    {
      hide Promote, C.ValidConfig, L.Ledger.View, R.Enabled;
      PromoteSpeculation(e.ctx, e.key, e.user, e.item, e.gen, e.now);
    }

    method HandleAdoption(e: R.Event)
      requires Valid() && R.Enabled(State(), e)
      requires R.OfAdoption(e) && !e.PromoteEvent?
      modifies Repr()
      ensures Valid() && Repr() == old(Repr()) && State() == R.AdoptionNext(setup, old(State()), e)
    {
      hide ReadDelta, CloseStream, GenerationGone, M.Close, L.Ledger.View;
      match e {
        case ReadEvent(k) => var _ := ReceiveAdopted(k);
        case CloseStreamEvent(k) => CloseAdopted(k);
        case GenerationGoneEvent(k) => GenerationEnded(k);
        case CloseEvent => CloseSession();
      }
    }

    // Every event goes to the part of the session that handles it.
    method Dispatch(e: R.Event)
      requires Valid() && C.ValidConfig(setup.conversation) && R.Enabled(State(), e) && State().books.items != []
      modifies Repr()
      ensures Valid() && fresh(Repr() - old(Repr()))
      ensures State() == R.Next(setup, old(State()), e)
    {
      hide R.Enabled, C.ValidConfig, L.Ledger.View, R.InputNext, R.EndpointNext, R.PlaybackNext, R.AnswerNext,
           R.WorkerNext, R.AdoptionNext;
      if R.OfInput(e) {
        HandleSpeech(e);
      } else if R.OfEndpoint(e) {
        HandleEndpoint(e);
      } else if R.OfPlayback(e) {
        HandlePlayback(e);
      } else if R.OfAnswer(e) {
        HandleResponse(e);
      } else if e.PromoteEvent? {
        HandlePromotion(e);
      } else if R.OfAdoption(e) {
        HandleAdoption(e);
      } else {
        HandleWorker(e);
      }
    }

    // Whatever may happen to the object is a step of the runs, in whatever order it
    // happens, and what every run keeps the object keeps.
    method Handle(e: R.Event)
      requires Upheld() && R.Enabled(State(), e)
      modifies Repr()
      ensures Upheld() && fresh(Repr() - old(Repr()))
      ensures State() == R.Next(setup, old(State()), e)
    {
      hide R.Enabled, R.LiveInv, C.ValidConfig, R.Next, L.Ledger.View;
      R.EnabledRuns(setup, State(), e);
      R.NextOk(setup, State(), e);
      Dispatch(e);
    }
  }
}
