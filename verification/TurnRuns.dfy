// Whole runs of a live session, and what they show.
module TurnRuns {
  import opened Arithmetic
  import opened Options
  import C = ConversationModel
  import B = ConversationBounds
  import P = Playback
  import opened TurnModel
  import opened TurnInvariant
  import opened TurnSteps
  import opened TurnEvents
  import opened TurnWorks
  import opened TurnHeld
  import opened TurnWriters

  // Identifiers are issued by the session, so an event carries the ones it uses up.
  datatype Event =
    | StartInputEvent
    | SpeechStartEvent(generation: string, id: string, turn: string, now: int)
    | EndSpeechEvent(valid: bool, now: int)
    | CancelInputEvent(stop: bool)
    | AudioEvent(data: Bytes)
    | PollEvent(free: bool, idle: bool, id: string, now: int)
    | DetectorEvent(epoch: nat, detection: Detection)
    | ClassifierEvent(revision: nat, id: string, decision: Classification, now: int)
    | BeginPauseEvent(generation: string, id: string, now: int)
    | SemanticEvent(generation: string, turn: string, id: string)
    | PausedEvent(generation: string, id: string, frames: int)
    | FailedEvent(generation: string, id: string)
    | StartGenerationEvent(turn: string, textOnly: bool, item: string, gen: string)
    | CancelEvent(id: string)
    | MarkDoneEvent(id: string)
    | TextTurnEvent(turn: string)
    | ResponseEvent(ctx: nat, text: C.Text, textOnly: bool, user: string, item: string, gen: string)
    | BooksEvent(event: BookEvent)
    | SttEvent(work: nat, heard: Option<C.Text>)
    | ModelEvent(work: nat, ok: bool)
    | DeltaEvent(work: nat, text: C.Text)
    | StreamEndEvent(work: nat, eof: bool)
    | RetryEvent(work: nat)
    | GoneEvent(work: nat)
    | TimeoutEvent(work: nat)
    | PromoteEvent(ctx: nat, key: Key, user: string, item: string, gen: string, now: int)
    | ReadEvent(work: nat)
    | CloseStreamEvent(work: nat)
    | GenerationGoneEvent(work: nat)
    | CloseEvent

  predicate Distinct3(s: Session, a: string, b: string, c: string) {
    Unused(s, a) && Unused(s, b) && Unused(s, c) && a != b && a != c && b != c
  }

  // Fresh identifiers are fresh, a worker reports from where it is, and the packet
  // loop writes what was registered and granted. Everything else may happen at any time:
  // a promotion is asked for with any context and any key.
  ghost predicate Enabled(s: Session, e: Event) {
    !s.closed &&
    match e
    case SpeechStartEvent(_, _, turn, _) => s.input.state == Listening ==> Unused(s, turn)
    case PollEvent(_, _, id, _) => Unused(s, id)
    case StartGenerationEvent(turn, _, item, gen) => Distinct3(s, turn, item, gen)
    case TextTurnEvent(turn) => Unused(s, turn)
    case ResponseEvent(_, _, _, user, item, gen) => Distinct3(s, user, item, gen)
    case BooksEvent(event) => Writes(s, event)
    case SttEvent(k, _) => At(s, k, AtStt)
    case ModelEvent(k, _) => At(s, k, AtModel)
    case DeltaEvent(k, _) => At(s, k, AtStream)
    case StreamEndEvent(k, _) => At(s, k, AtStream)
    case RetryEvent(k) => k < |s.spec.works| && s.spec.works[k].phase.Holding?
    case GoneEvent(k) => At(s, k, Leaving)
    case TimeoutEvent(k) => k < |s.spec.works|
    case PromoteEvent(_, _, user, item, gen, _) => Distinct3(s, user, item, gen)
    case ReadEvent(k) => k < |s.spec.works|
    case CloseStreamEvent(k) => k < |s.spec.works|
    case GenerationGoneEvent(k) => k < |s.spec.works|
    case _ => true
  }

  predicate OfInput(e: Event) {
    e.StartInputEvent? || e.SpeechStartEvent? || e.EndSpeechEvent? || e.CancelInputEvent? || e.AudioEvent?
  }

  predicate OfEndpoint(e: Event) { e.PollEvent? || e.DetectorEvent? || e.ClassifierEvent? }

  predicate OfPlayback(e: Event) {
    e.BeginPauseEvent? || e.SemanticEvent? || e.PausedEvent? || e.FailedEvent? || e.BooksEvent?
  }

  predicate OfAnswer(e: Event) {
    e.StartGenerationEvent? || e.CancelEvent? || e.MarkDoneEvent? || e.TextTurnEvent? || e.ResponseEvent?
  }

  predicate OfAdoption(e: Event) {
    e.PromoteEvent? || e.ReadEvent? || e.CloseStreamEvent? || e.GenerationGoneEvent? || e.CloseEvent?
  }

  predicate OfWorker(e: Event) {
    !OfInput(e) && !OfEndpoint(e) && !OfPlayback(e) && !OfAnswer(e) && !OfAdoption(e)
  }

  ghost function InputNext(u: Setup, s: Session, e: Event): Session
    requires Enabled(s, e) && s.books.items != [] && OfInput(e)
  {
    match e
    case StartInputEvent => StartInput(s)
    case SpeechStartEvent(generation, id, turn, now) => SpeechStart(u, s, generation, id, turn, now)
    case EndSpeechEvent(valid, now) => EndSpeech(u, s, valid, now)
    case CancelInputEvent(stop) => CancelInput(s, stop)
    case AudioEvent(data) => AppendAudio(s, u, data)
  }

  ghost function EndpointNext(u: Setup, s: Session, e: Event): Session
    requires Enabled(s, e) && s.books.items != [] && OfEndpoint(e)
  {
    match e
    case PollEvent(free, idle, id, now) => Poll(u, s, free, idle, id, now)
    case DetectorEvent(epoch, detection) => DetectorResult(u, s, epoch, detection)
    case ClassifierEvent(revision, id, decision, now) => ClassifierResult(u, s, revision, id, decision, now)
  }

  ghost function PlaybackNext(u: Setup, s: Session, e: Event): Session
    requires Enabled(s, e) && s.books.items != [] && OfPlayback(e)
  {
    match e
    case BeginPauseEvent(generation, id, now) => BeginPause(u, s, generation, id, false, now)
    case SemanticEvent(generation, turn, id) => Semantic(u, s, generation, turn, id)
    case PausedEvent(generation, id, frames) => PlaybackPaused(s, generation, id, frames)
    case FailedEvent(generation, id) => PlaybackFailed(s, generation, id)
    case BooksEvent(event) => KeepBooks(u, s, event)
  }

  ghost function AnswerNext(u: Setup, s: Session, e: Event): Session
    requires Enabled(s, e) && s.books.items != [] && OfAnswer(e)
  {
    match e
    case StartGenerationEvent(turn, textOnly, item, gen) => StartGeneration(u, s, turn, textOnly, item, gen)
    case CancelEvent(id) => CancelGeneration(s, id)
    case MarkDoneEvent(id) => MarkDone(s, id)
    case TextTurnEvent(turn) => NewTextTurn(s, turn)
    case ResponseEvent(ctx, text, textOnly, user, item, gen) =>
      BeginResponse(u, s, ctx, text, textOnly, user, item, gen)
  }

  ghost function WorkerNext(u: Setup, s: Session, e: Event): Session
    requires Enabled(s, e) && s.books.items != [] && OfWorker(e)
  {
    match e
    case SttEvent(k, text) => SttResult(u, s, k, text)
    case ModelEvent(k, ok) => ModelResult(s, k, ok)
    case DeltaEvent(k, text) => StreamDelta(u, s, k, text)
    case StreamEndEvent(k, eof) => StreamEnd(s, k, eof)
    case RetryEvent(k) => Retry(u, s, k)
    case GoneEvent(k) => WorkerGone(s, k)
    case TimeoutEvent(k) => WorkTimeout(s, k)
  }

  ghost function AdoptionNext(u: Setup, s: Session, e: Event): Session
    requires Enabled(s, e) && s.books.items != [] && OfAdoption(e)
  {
    match e
    case PromoteEvent(ctx, key, user, item, gen, now) => Promote(u, s, ctx, key, user, item, gen, now)
    case ReadEvent(k) => ReadDelta(s, k)
    case CloseStreamEvent(k) => CloseStream(s, k)
    case GenerationGoneEvent(k) => GenerationGone(s, k)
    case CloseEvent => Close(s)
  }

  ghost function Next(u: Setup, s: Session, e: Event): Session
    requires Enabled(s, e) && s.books.items != []
  {
    if OfInput(e) then InputNext(u, s, e)
    else if OfEndpoint(e) then EndpointNext(u, s, e)
    else if OfPlayback(e) then PlaybackNext(u, s, e)
    else if OfAnswer(e) then AnswerNext(u, s, e)
    else if OfAdoption(e) then AdoptionNext(u, s, e)
    else WorkerNext(u, s, e)
  }

  lemma NextParts(u: Setup, s: Session, e: Event)
    requires Enabled(s, e) && s.books.items != []
    ensures OfInput(e) ==> Next(u, s, e) == InputNext(u, s, e)
    ensures OfEndpoint(e) ==> Next(u, s, e) == EndpointNext(u, s, e)
    ensures OfPlayback(e) ==> Next(u, s, e) == PlaybackNext(u, s, e)
    ensures OfAdoption(e) ==> Next(u, s, e) == AdoptionNext(u, s, e)
    ensures OfWorker(e) ==> Next(u, s, e) == WorkerNext(u, s, e)
  {
    hide Enabled, InputNext, EndpointNext, PlaybackNext, AnswerNext, WorkerNext, AdoptionNext;
    OfOne(e);
    hide OfInput, OfEndpoint, OfPlayback, OfAnswer, OfAdoption, OfWorker;
  }

  // Every event is of one part.
  lemma OfOne(e: Event)
    ensures OfEndpoint(e) ==> !OfInput(e)
    ensures OfPlayback(e) ==> !OfInput(e) && !OfEndpoint(e)
    ensures OfAdoption(e) ==> !OfInput(e) && !OfEndpoint(e) && !OfPlayback(e) && !OfAnswer(e)
    ensures OfWorker(e) <==>
      !OfInput(e) && !OfEndpoint(e) && !OfPlayback(e) && !OfAnswer(e) && !OfAdoption(e)
  {
  }

  // --- the invariant ----------------------------------------------------------

  lemma NextInputOk(u: Setup, s: Session, e: Event)
    requires Inv(u, s) && Enabled(s, e) && s.books.items != [] && OfInput(e)
    ensures Inv(u, InputNext(u, s, e))
  {
    hide Inv, StartInput, SpeechStart, EndSpeech, CancelInput, AppendAudio;
    match e
    case StartInputEvent => StartInputOk(u, s);
    case SpeechStartEvent(generation, id, turn, now) => SpeechStartOk(u, s, generation, id, turn, now);
    case EndSpeechEvent(valid, now) => EndSpeechOk(u, s, valid, now);
    case CancelInputEvent(stop) => CancelInputOk(u, s, stop);
    case AudioEvent(data) => AppendAudioOk(u, s, data);
  }

  lemma NextEndpointOk(u: Setup, s: Session, e: Event)
    requires Inv(u, s) && Enabled(s, e) && s.books.items != [] && OfEndpoint(e)
    ensures Inv(u, EndpointNext(u, s, e))
  {
    hide Inv, Poll, DetectorResult, ClassifierResult;
    match e
    case PollEvent(free, idle, id, now) => PollOk(u, s, free, idle, id, now);
    case DetectorEvent(epoch, detection) => DetectorResultOk(u, s, epoch, detection);
    case ClassifierEvent(revision, id, decision, now) => ClassifierResultOk(u, s, revision, id, decision, now);
  }

  lemma NextPlaybackOk(u: Setup, s: Session, e: Event)
    requires Inv(u, s) && WritersOk(s) && Enabled(s, e) && s.books.items != [] && OfPlayback(e)
    ensures Inv(u, PlaybackNext(u, s, e))
  {
    hide Inv, BeginPause, Semantic, PlaybackPaused, PlaybackFailed, KeepBooks, Writes, WritersOk, At;
    match e
    case BeginPauseEvent(generation, id, now) => BeginPauseOk(u, s, generation, id, false, now);
    case SemanticEvent(generation, turn, id) => SemanticOk(u, s, generation, turn, id);
    case PausedEvent(generation, id, frames) => PlaybackPausedOk(u, s, generation, id, frames);
    case FailedEvent(generation, id) => PlaybackFailedOk(u, s, generation, id);
    case BooksEvent(event) =>
      WritesHonest(s, event);
      BookEventOk(u, s, event);
  }

  lemma NextAnswerOk(u: Setup, s: Session, e: Event)
    requires Inv(u, s) && Enabled(s, e) && s.books.items != [] && OfAnswer(e)
    ensures Inv(u, AnswerNext(u, s, e))
  {
    hide Inv, StartGeneration, CancelGeneration, MarkDone, NewTextTurn, BeginResponse;
    match e
    case StartGenerationEvent(turn, textOnly, item, gen) => StartEventOk(u, s, turn, textOnly, item, gen);
    case CancelEvent(id) => CancelEventOk(u, s, id);
    case MarkDoneEvent(id) => MarkDoneOk(u, s, id);
    case TextTurnEvent(turn) => NewTextTurnOk(u, s, turn);
    case ResponseEvent(ctx, text, textOnly, user, item, gen) =>
      BeginResponseOk(u, s, ctx, text, textOnly, user, item, gen);
  }

  lemma NextWorkerOk(u: Setup, s: Session, e: Event)
    requires Inv(u, s) && HeldOk(s) && Enabled(s, e) && s.books.items != [] && OfWorker(e)
    ensures Inv(u, WorkerNext(u, s, e))
  {
    hide Inv, HeldOk, SttResult, ModelResult, StreamDelta, StreamEnd, Retry, WorkerGone, WorkTimeout;
    match e
    case SttEvent(k, text) => SttResultOk(u, s, k, text);
    case ModelEvent(k, ok) => ModelResultOk(u, s, k, ok);
    case DeltaEvent(k, text) => StreamDeltaOk(u, s, k, text);
    case StreamEndEvent(k, eof) => StreamEndOk(u, s, k, eof);
    case RetryEvent(k) => RetryOk(u, s, k);
    case GoneEvent(k) => WorkerGoneOk(u, s, k);
    case TimeoutEvent(k) => WorkTimeoutOk(u, s, k);
  }

  lemma NextAdoptionOk(u: Setup, s: Session, e: Event)
    requires Inv(u, s) && HeldOk(s) && Enabled(s, e) && s.books.items != [] && OfAdoption(e) && !e.CloseEvent?
    ensures Inv(u, AdoptionNext(u, s, e))
  {
    hide Inv, HeldOk, Promote, ReadDelta, CloseStream, GenerationGone;
    match e
    case PromoteEvent(ctx, key, user, item, gen, now) => PromoteOk(u, s, ctx, key, user, item, gen, now);
    case ReadEvent(k) => ReadDeltaOk(u, s, k);
    case CloseStreamEvent(k) => CloseStreamOk(u, s, k);
    case GenerationGoneEvent(k) => CloseStreamOk(u, s, k);
  }

  lemma NextInputHeld(u: Setup, s: Session, e: Event)
    requires Inv(u, s) && HeldOk(s) && Enabled(s, e) && s.books.items != [] && OfInput(e)
    ensures HeldOk(InputNext(u, s, e))
  {
    hide Inv, HeldOk, StartInput, SpeechStart, EndSpeech, CancelInput, AppendAudio;
    match e
    case StartInputEvent => StartInputHeld(u, s);
    case SpeechStartEvent(generation, id, turn, now) => SpeechHeld(u, s, generation, id, turn, now);
    case EndSpeechEvent(valid, now) => EndSpeechHeld(u, s, valid, now);
    case CancelInputEvent(stop) => CancelInputHeld(u, s, stop);
    case AudioEvent(data) => AppendAudioHeld(u, s, data);
  }

  lemma NextEndpointHeld(u: Setup, s: Session, e: Event)
    requires Inv(u, s) && HeldOk(s) && Enabled(s, e) && s.books.items != [] && OfEndpoint(e)
    ensures HeldOk(EndpointNext(u, s, e))
  {
    hide Inv, HeldOk, Poll, DetectorResult, ClassifierResult;
    match e
    case PollEvent(free, idle, id, now) => PollHeld(u, s, free, idle, id, now);
    case DetectorEvent(epoch, detection) => DetectorHeld(u, s, epoch, detection);
    case ClassifierEvent(revision, id, decision, now) => ClassifierHeld(u, s, revision, id, decision, now);
  }

  // Positions and books hold nothing.
  lemma PlainHeld(u: Setup, s: Session, e: Event)
    requires HeldOk(s) && Enabled(s, e) && s.books.items != []
    requires e.SemanticEvent? || e.PausedEvent? || e.BooksEvent?
    ensures HeldOk(PlaybackNext(u, s, e))
  {
    hide HeldOk, Tame, Keep, P.RecordSource, P.PauseTimeline, Writes;
    Elsewhere(s, PlaybackNext(u, s, e));
    TameOk(s, PlaybackNext(u, s, e));
  }

  lemma NextPlaybackHeld(u: Setup, s: Session, e: Event)
    requires Inv(u, s) && HeldOk(s) && Enabled(s, e) && s.books.items != [] && OfPlayback(e)
    ensures HeldOk(PlaybackNext(u, s, e))
  {
    if e.SemanticEvent? || e.PausedEvent? || e.BooksEvent? {
      hide Inv, HeldOk, PlaybackNext, Enabled;
      PlainHeld(u, s, e);
    } else {
      hide Inv, HeldOk, BeginPause, PlaybackFailed;
      match e
      case BeginPauseEvent(generation, id, now) => BeginPauseHeld(u, s, generation, id, false, now);
      case FailedEvent(generation, id) => PlaybackFailedHeld(u, s, generation, id);
    }
  }

  lemma DoneHeld(s: Session, id: string)
    requires HeldOk(s) && s.books.items != []
    ensures HeldOk(MarkDone(s, id))
  {
    hide HeldOk, Tame, P.AudioDone;
    Elsewhere(s, MarkDone(s, id));
    TameOk(s, MarkDone(s, id));
  }

  lemma NextAnswerHeld(u: Setup, s: Session, e: Event)
    requires Inv(u, s) && HeldOk(s) && Enabled(s, e) && s.books.items != [] && OfAnswer(e)
    ensures HeldOk(AnswerNext(u, s, e))
  {
    hide Inv, HeldOk, StartGeneration, CancelGeneration, MarkDone, NewTextTurn, BeginResponse;
    match e
    case StartGenerationEvent(turn, textOnly, item, gen) => StartGenerationHeld(u, s, turn, textOnly, item, gen);
    case CancelEvent(id) => CancelHeld(u, s, id);
    case MarkDoneEvent(id) => DoneHeld(s, id);
    case TextTurnEvent(turn) => TextTurnHeld(u, s, turn);
    case ResponseEvent(ctx, text, textOnly, user, item, gen) =>
      ResponseHeld(u, s, ctx, text, textOnly, user, item, gen);
  }

  lemma NextWorkerHeld(u: Setup, s: Session, e: Event)
    requires Inv(u, s) && HeldOk(s) && Enabled(s, e) && s.books.items != [] && OfWorker(e)
    ensures HeldOk(WorkerNext(u, s, e))
  {
    hide Inv, HeldOk, SttResult, ModelResult, StreamDelta, StreamEnd, Retry, WorkerGone, WorkTimeout;
    match e
    case SttEvent(k, text) => SttHeld(u, s, k, text);
    case ModelEvent(k, ok) => ModelHeld(u, s, k, ok);
    case DeltaEvent(k, text) => StreamHeld(u, s, k, text, false);
    case StreamEndEvent(k, eof) => StreamHeld(u, s, k, [], eof);
    case RetryEvent(k) => RetryHeld(u, s, k);
    case GoneEvent(k) => GoneHeld(s, k);
    case TimeoutEvent(k) => TimeoutHeld(s, k);
  }

  lemma NextAdoptionHeld(u: Setup, s: Session, e: Event)
    requires Inv(u, s) && HeldOk(s) && Enabled(s, e) && s.books.items != [] && OfAdoption(e) && !e.CloseEvent?
    ensures HeldOk(AdoptionNext(u, s, e))
  {
    hide Inv, HeldOk, Promote, ReadDelta, CloseStream, GenerationGone;
    match e
    case PromoteEvent(ctx, key, user, item, gen, now) => PromoteHeld(u, s, ctx, key, user, item, gen, now);
    case ReadEvent(k) => StreamReadHeld(s, k);
    case CloseStreamEvent(k) => StreamReadHeld(s, k);
    case GenerationGoneEvent(k) => StreamReadHeld(s, k);
  }

  // --- the writers ------------------------------------------------------------

  lemma NextInputSteady(u: Setup, s: Session, e: Event)
    requires Enabled(s, e) && s.books.items != [] && OfInput(e)
    ensures Steady(s, InputNext(u, s, e))
  {
    hide Steady, StartInput, SpeechStart, EndSpeech, CancelInput, AppendAudio;
    match e
    case StartInputEvent => StartSteady(s);
    case SpeechStartEvent(generation, id, turn, now) => SpeechSteady(u, s, generation, id, turn, now);
    case EndSpeechEvent(valid, now) => EndSpeechSteady(u, s, valid, now);
    case CancelInputEvent(stop) => CancelInputSteady(s, stop);
    case AudioEvent(data) => AppendAudioSteady(s, u, data);
  }

  lemma StartSteady(s: Session)
    ensures Steady(s, StartInput(s))
  {
    InvalidateUnwritten(s, Invalidated);
    hide Steady;
    Unwritten(s, StartInput(s));
  }

  lemma NextEndpointSteady(u: Setup, s: Session, e: Event)
    requires Enabled(s, e) && s.books.items != [] && OfEndpoint(e)
    ensures Steady(s, EndpointNext(u, s, e))
  {
    hide Steady, Poll, DetectorResult, ClassifierResult;
    match e
    case PollEvent(free, idle, id, now) => PollSteady(u, s, free, idle, id, now);
    case DetectorEvent(epoch, detection) => DetectorSteady(u, s, epoch, detection);
    case ClassifierEvent(revision, id, decision, now) => ClassifierSteady(u, s, revision, id, decision, now);
  }

  lemma NextPlaybackSteady(u: Setup, s: Session, e: Event)
    requires Enabled(s, e) && s.books.items != [] && OfPlayback(e) && !e.BooksEvent?
    ensures Steady(s, PlaybackNext(u, s, e))
  {
    hide Steady, BeginPause, PlaybackPaused, PlaybackFailed, MarkDone;
    match e
    case BeginPauseEvent(generation, id, now) => BeginPauseSteady(u, s, generation, id, false, now);
    case SemanticEvent(generation, turn, id) => Unwritten(s, Semantic(u, s, generation, turn, id));
    case PausedEvent(generation, id, frames) => PlaybackSteady(s, generation, id, frames);
    case FailedEvent(generation, id) => PlaybackSteady(s, generation, id, 0);
  }

  lemma NextAnswerSteady(u: Setup, s: Session, e: Event)
    requires Enabled(s, e) && s.books.items != [] && OfAnswer(e)
    ensures Steady(s, AnswerNext(u, s, e))
  {
    hide Steady, StartGeneration, CancelGeneration, MarkDone, NewTextTurn, BeginResponse, PlaybackPaused,
         PlaybackFailed;
    match e
    case StartGenerationEvent(turn, textOnly, item, gen) => StartEventSteady(u, s, turn, textOnly, item, gen);
    case CancelEvent(id) => CancelEventSteady(s, id);
    case MarkDoneEvent(id) => PlaybackSteady(s, "", id, 0);
    case TextTurnEvent(turn) => TextSteady(s, turn);
    case ResponseEvent(ctx, text, textOnly, user, item, gen) =>
      ResponseSteady(u, s, ctx, text, textOnly, user, item, gen);
  }

  lemma TextSteady(s: Session, turn: string)
    ensures Steady(s, NewTextTurn(s, turn))
  {
    InvalidateUnwritten(s, Invalidated);
    hide Steady, InvalidateSpeculation;
    Unwritten(s, NewTextTurn(s, turn));
  }

  // The worker and the readers of its stream touch the speculation alone.
  lemma HearingOnly(u: Setup, s: Session, k: nat, text: Option<C.Text>, ok: bool)
    requires s.books.items != []
    ensures At(s, k, AtStt) ==> SttResult(u, s, k, text) == s.(spec := SttResult(u, s, k, text).spec)
    ensures At(s, k, AtModel) ==> ModelResult(s, k, ok) == s.(spec := ModelResult(s, k, ok).spec)
  {
    hide ValidWork, Ended, C.Context;
  }

  lemma StreamOnly(u: Setup, s: Session, k: nat, text: C.Text, eof: bool)
    requires k < |s.spec.works|
    ensures Offer(u, s, k, text) == s.(spec := Offer(u, s, k, text).spec)
    ensures At(s, k, AtStream) ==> StreamEnd(s, k, eof) == s.(spec := StreamEnd(s, k, eof).spec)
  {
    hide ValidWork, Ended, NoRoom, Push;
  }

  lemma ReaderOnly(s: Session, k: nat)
    requires k < |s.spec.works|
    ensures ReadDelta(s, k) == s.(spec := ReadDelta(s, k).spec)
    ensures CloseStream(s, k) == s.(spec := CloseStream(s, k).spec)
    ensures GenerationGone(s, k) == s.(spec := GenerationGone(s, k).spec)
    ensures WorkTimeout(s, k) == s.(spec := WorkTimeout(s, k).spec)
  {
    hide ValidWork, Ended;
  }

  lemma WorkerOnly(u: Setup, s: Session, e: Event)
    requires Enabled(s, e) && s.books.items != [] && OfWorker(e)
    ensures WorkerNext(u, s, e) == s.(spec := WorkerNext(u, s, e).spec)
  {
    hide Offer, StreamEnd, SttResult, ModelResult, WorkTimeout;
    match e
    case SttEvent(k, text) => HearingOnly(u, s, k, text, false);
    case ModelEvent(k, ok) => HearingOnly(u, s, k, None, ok);
    case DeltaEvent(k, text) => StreamOnly(u, s, k, text, false);
    case StreamEndEvent(k, eof) => StreamOnly(u, s, k, [], eof);
    case RetryEvent(k) => StreamOnly(u, s, k, s.spec.works[k].phase.text, false);
    case GoneEvent(k) =>
    case TimeoutEvent(k) => ReaderOnly(s, k);
  }

  lemma AdoptionOnly(u: Setup, s: Session, e: Event)
    requires Enabled(s, e) && s.books.items != [] && OfAdoption(e) && !e.CloseEvent? && !e.PromoteEvent?
    ensures AdoptionNext(u, s, e) == s.(spec := AdoptionNext(u, s, e).spec)
  {
    hide ReadDelta, CloseStream, GenerationGone, Adopt;
    match e
    case ReadEvent(k) => ReaderOnly(s, k);
    case CloseStreamEvent(k) => ReaderOnly(s, k);
    case GenerationGoneEvent(k) => ReaderOnly(s, k);
  }

  lemma NextWorkerSteady(u: Setup, s: Session, e: Event)
    requires Enabled(s, e) && s.books.items != [] && OfWorker(e)
    ensures Steady(s, WorkerNext(u, s, e))
  {
    hide WorkerNext, Enabled, Steady;
    WorkerOnly(u, s, e);
    Unwritten(s, WorkerNext(u, s, e));
  }

  lemma NextAdoptionSteady(u: Setup, s: Session, e: Event)
    requires Enabled(s, e) && s.books.items != [] && OfAdoption(e) && !e.CloseEvent?
    ensures Steady(s, AdoptionNext(u, s, e))
  {
    if e.PromoteEvent? {
      hide Promote, Steady;
      PromoteSteady(u, s, e.ctx, e.key, e.user, e.item, e.gen, e.now);
    } else {
      hide AdoptionNext, Enabled, Steady;
      AdoptionOnly(u, s, e);
      Unwritten(s, AdoptionNext(u, s, e));
    }
  }

  lemma NextWriters(u: Setup, s: Session, e: Event)
    requires Inv(u, s) && WritersOk(s) && Enabled(s, e) && s.books.items != [] && !e.CloseEvent?
    ensures WritersOk(Next(u, s, e)) && Forward(s, Next(u, s, e))
  {
    hide Inv, WritersOk, Steady, Forward, Writes, InputNext, EndpointNext, AnswerNext, WorkerNext, AdoptionNext;
    if e.BooksEvent? {
      KeepWriters(u, s, e.event);
    } else {
      hide PlaybackNext, Enabled;
      if OfInput(e) {
        NextInputSteady(u, s, e);
      } else if OfEndpoint(e) {
        NextEndpointSteady(u, s, e);
      } else if OfPlayback(e) {
        NextPlaybackSteady(u, s, e);
      } else if OfAnswer(e) {
        NextAnswerSteady(u, s, e);
      } else if OfAdoption(e) {
        NextAdoptionSteady(u, s, e);
      } else {
        NextWorkerSteady(u, s, e);
      }
      SteadyOk(s, Next(u, s, e));
    }
  }

  // --- runs -------------------------------------------------------------------

  // What a live session keeps.
  ghost predicate LiveInv(u: Setup, s: Session) { Inv(u, s) && HeldOk(s) && WritersOk(s) }

  // A live session keeps it through every event until it is closed.
  lemma NextOk(u: Setup, s: Session, e: Event)
    requires LiveInv(u, s) && Enabled(s, e)
    ensures s.books.items != []
    ensures if e.CloseEvent? then Next(u, s, e) == Close(s) else LiveInv(u, Next(u, s, e))
  {
    assert s.books.items != [];
    hide Inv, HeldOk, WritersOk, Enabled, Next;
    if e.CloseEvent? {
      NextParts(u, s, e);
      ClosesNext(u, s, e);
    } else {
      NextWriters(u, s, e);
      NextKept(u, s, e);
    }
  }

  lemma ClosesNext(u: Setup, s: Session, e: Event)
    requires Enabled(s, e) && s.books.items != [] && e.CloseEvent?
    ensures AdoptionNext(u, s, e) == Close(s)
  {
    hide Promote, ReadDelta, CloseStream, GenerationGone, Close;
  }

  lemma NextKept(u: Setup, s: Session, e: Event)
    requires Inv(u, s) && HeldOk(s) && WritersOk(s) && Enabled(s, e) && s.books.items != [] && !e.CloseEvent?
    ensures Inv(u, Next(u, s, e)) && HeldOk(Next(u, s, e))
  {
    hide Inv, HeldOk, WritersOk, Enabled, InputNext, EndpointNext, PlaybackNext, AnswerNext, WorkerNext, AdoptionNext;
    if OfInput(e) {
      NextInputOk(u, s, e);
      NextInputHeld(u, s, e);
    } else if OfEndpoint(e) {
      NextEndpointOk(u, s, e);
      NextEndpointHeld(u, s, e);
    } else if OfPlayback(e) {
      NextPlaybackOk(u, s, e);
      NextPlaybackHeld(u, s, e);
    } else if OfAnswer(e) {
      NextAnswerOk(u, s, e);
      NextAnswerHeld(u, s, e);
    } else if OfAdoption(e) {
      NextAdoptionOk(u, s, e);
      NextAdoptionHeld(u, s, e);
    } else {
      NextWorkerOk(u, s, e);
      NextWorkerHeld(u, s, e);
    }
  }

  // A closed session was a live one a moment before.
  ghost predicate Sound(u: Setup, s: Session) { LiveInv(u, s) || exists p :: LiveInv(u, p) && s == Close(p) }

  lemma OpenRuns(u: Setup, s: Session)
    requires Sound(u, s) && !s.closed
    ensures LiveInv(u, s)
  {}

  lemma EnabledRuns(u: Setup, s: Session, e: Event)
    requires Sound(u, s) && Enabled(s, e)
    ensures LiveInv(u, s)
  {
    OpenRuns(u, s);
  }

  // An event that cannot happen is skipped.
  ghost function Try(u: Setup, s: Session, e: Event): (d: Session)
    requires Sound(u, s)
    ensures Sound(u, d)
  {
    if Enabled(s, e) then
      OpenRuns(u, s);
      NextOk(u, s, e);
      Next(u, s, e)
    else s
  }

  ghost function Execute(u: Setup, s: Session, events: seq<Event>): (d: Session)
    requires Sound(u, s)
    ensures Sound(u, d)
    decreases |events|
  {
    if events == [] then s else Execute(u, Try(u, s, events[0]), events[1..])
  }

  lemma InitialOk(u: Setup, item: string)
    requires C.ValidConfig(u.conversation) && item != ""
    ensures LiveInv(u, Initial(u, item))
  {
    B.FreshStoreOk(u.conversation, item);
  }

  ghost function Reach(u: Setup, item: string, events: seq<Event>): (d: Session)
    requires C.ValidConfig(u.conversation) && item != ""
    ensures Sound(u, d)
  {
    InitialOk(u, item);
    Execute(u, Initial(u, item), events)
  }

  // --- what every reachable state shows ---------------------------------------

  // The state itself, or the live one it was before it was closed.
  lemma Before(u: Setup, s: Session) returns (p: Session)
    requires Sound(u, s)
    ensures LiveInv(u, p) && (s == p || s == Close(p))
  {
    if LiveInv(u, s) {
      p := s;
    } else {
      p :| LiveInv(u, p) && s == Close(p);
    }
  }

  // Committed turns: the last half second heard while listening, then every byte
  // since speech began; no byte is in two of them and no turn is committed twice.
  lemma CommittedAudio(u: Setup, item: string, events: seq<Event>, i: nat)
    requires C.ValidConfig(u.conversation) && item != ""
    requires i < |Reach(u, item, events).log| && Reach(u, item, events).log[i].TurnCommitted?
    ensures var s := Reach(u, item, events); var e := s.log[i];
            && e.listen <= e.spoke <= e.hi <= |s.stream|
            && e.audio == Last(s.stream[e.listen..e.spoke], PRE_ROLL) + s.stream[e.spoke..e.hi]
            && forall j | 0 <= j < i && s.log[j].TurnCommitted? :: s.log[j].hi <= e.listen && s.log[j].turn != e.turn
  {
    hide Reach, Inv, WritersOk, HeldOk;
    var p := Before(u, Reach(u, item, events));
    CommittedParts(u, p, i);
  }

  lemma CommittedParts(u: Setup, s: Session, i: nat)
    requires Inv(u, s) && i < |s.log| && s.log[i].TurnCommitted?
    ensures var e := s.log[i];
            && e.listen <= e.spoke <= e.hi <= |s.stream|
            && e.audio == Last(s.stream[e.listen..e.spoke], PRE_ROLL) + s.stream[e.spoke..e.hi]
            && forall j | 0 <= j < i && s.log[j].TurnCommitted? :: s.log[j].hi <= e.listen && s.log[j].turn != e.turn
  {
    hide P.Core, PauseOk;
    var e := s.log[i];
    assert CommitsOk(s.log, s.stream, s.listen) && TurnLogOk(s.log, s.ids, s.spent, s.input.turn, s.input.state);
    hide Inv;
    assert CommitOk(e, s.stream, s.listen);
    assert Last(s.stream[e.listen..e.spoke], PRE_ROLL) == s.stream[e.lo..e.spoke];
    assert s.stream[e.lo..e.hi] == s.stream[e.lo..e.spoke] + s.stream[e.spoke..e.hi];
  }

  // Speculation never escapes its commit barrier: whatever context and key a
  // promotion was asked for with, the work promoted was marked by the commit of
  // its own turn, that commit opened the context, and nothing dropped it since.
  lemma PromotionCrossedBarrier(u: Setup, item: string, events: seq<Event>, j: nat)
    requires C.ValidConfig(u.conversation) && item != ""
    requires j < |Reach(u, item, events).log| && Reach(u, item, events).log[j].WorkPromoted?
    ensures Reach(u, item, events).log[j].work < |Reach(u, item, events).spec.works|
    ensures var s := Reach(u, item, events); var e := s.log[j]; var key := s.spec.works[e.work].key;
            && (exists i | 0 <= i < j ::
                  s.log[i].TurnCommitted? && s.log[i].ctx == e.ctx && s.log[i].key == Some(key)
                    && s.log[i].turn == key.turn)
            && (forall d | 0 <= d < j :: s.log[d] != ResponseDropped(e.ctx))
  {
    hide Reach, WritersOk, HeldOk;
    var p := Before(u, Reach(u, item, events));
    CrossedParts(u, p, j);
  }

  lemma CrossedParts(u: Setup, s: Session, j: nat)
    requires Inv(u, s) && j < |s.log| && s.log[j].WorkPromoted?
    ensures s.log[j].work < |s.spec.works|
    ensures var e := s.log[j]; var key := s.spec.works[e.work].key;
            && (exists i | 0 <= i < j ::
                  s.log[i].TurnCommitted? && s.log[i].ctx == e.ctx && s.log[i].key == Some(key)
                    && s.log[i].turn == key.turn)
            && (forall d | 0 <= d < j :: s.log[d] != ResponseDropped(e.ctx))
  {
    var key := s.spec.works[s.log[j].work].key;
    assert Crossed(s.log, j, key);
    hide Inv;
    var i :| 0 <= i < j && PublishedAt(s.log, i, s.log[j].ctx, key);
    assert s.log[i].TurnCommitted?;
  }

  // Each response context yields at most one generation and each turn at most one answer.
  lemma AnsweredOnce(u: Setup, item: string, events: seq<Event>, i: nat, j: nat)
    requires C.ValidConfig(u.conversation) && item != ""
    requires i < j < |Reach(u, item, events).log|
    requires Reach(u, item, events).log[i].GenerationBegun? && Reach(u, item, events).log[j].GenerationBegun?
    ensures var a, b := Reach(u, item, events).log[i], Reach(u, item, events).log[j];
            a.ctx != b.ctx && a.turn != b.turn && a.generation != b.generation
  {
    hide Reach, WritersOk, HeldOk;
    var s := Before(u, Reach(u, item, events));
    assert ResponseOk(s.response, s.contexts, s.log) && TurnLogOk(s.log, s.ids, s.spent, s.input.turn, s.input.state);
  }

  // An adopted stream answers exactly the official request of the generation it
  // feeds, and what was read of it is what was produced, in order, none missing.
  lemma AdoptedStream(u: Setup, item: string, events: seq<Event>, k: nat)
    requires C.ValidConfig(u.conversation) && item != ""
    requires k < |Reach(u, item, events).spec.works|
    ensures var s := Reach(u, item, events); var w := s.spec.works[k];
            && w.delivered <= w.produced && w.bytes == Total(w.deltas) <= u.maxDeltaBytes
            && (w.delivered != [] ==> w.adopted)
            && (w.live ==> w.produced == w.delivered + w.deltas)
            && (w.adopted && w.live && w.generation == s.books.gen ==> w.request == s.generation.request)
  {
    hide Reach, Inv, WritersOk, HeldOk;
    var p := Before(u, Reach(u, item, events));
    WorkFacts(u, p, k);
  }

  // Playback and history: a pause is of the current generation and shows in its
  // timeline, at most one answer is pending and it is the current generation's,
  // its counts are the timeline's, and no acknowledgement is lost.
  lemma PlaybackConsistent(u: Setup, item: string, events: seq<Event>)
    requires C.ValidConfig(u.conversation) && item != ""
    ensures Consistent(u, Reach(u, item, events))
  {
    hide Reach, Inv, WritersOk, HeldOk, Consistent;
    var s := Reach(u, item, events);
    var p := Before(u, s);
    BooksConsistent(u, p);
    CloseConsistent(u, p);
  }

  ghost predicate Consistent(u: Setup, s: Session) {
    var b := s.books;
    && (Pending(s) ==> s.pause.generation == b.gen && b.gen != "" && MidTurn(s.input))
    && (b.timeline.Some? ==> (b.timeline.value.paused <==> Pending(s)))
    && B.StoreOk(u.conversation, b.items)
    && (forall i | 0 <= i < |b.items| && b.items[i].status == C.Pending ::
          i == |b.items| - 1 && b.items[i].generation == b.gen)
    && (b.timeline.Some? ==> 0 <= b.timeline.value.played <= b.timeline.value.sent <= b.timeline.value.generated)
    && (b.gen != "" && b.flow.Some? && b.timeline.Some? ==>
          b.timeline.value.played >= Min(b.flow.value.played, b.timeline.value.sent))
    && (b.items != [] && b.items[|b.items| - 1].status == C.Pending && b.timeline.Some? ==>
          var p := b.items[|b.items| - 1];
          p.generated == b.timeline.value.generated && p.sent == b.timeline.value.sent
            && p.played == b.timeline.value.played)
  }

  lemma CloseConsistent(u: Setup, s: Session)
    requires Consistent(u, s)
    ensures Consistent(u, Close(s))
  {
    hide B.StoreOk;
  }

  lemma BooksConsistent(u: Setup, s: Session)
    requires Inv(u, s)
    ensures Consistent(u, s)
  {
    assert P.BooksOk(u.conversation, s.books);
    assert B.OnePending(s.books.items);
  }
}
