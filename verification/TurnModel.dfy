// One realtime session: listening, speaking and committing turns, pausing and
// cancelling output, starting generations and adopting speculative answers.
// Every locked section of the server is one function on the session's state.
// Detector, classifier, recogniser and language model results arrive as events,
// at any time and possibly for something that no longer exists.
module TurnModel {
  import opened Arithmetic
  import opened Options
  import C = ConversationModel
  import P = Playback

  type Bytes = seq<bv8>

  // Durations share one unit with the clock; sizes are bytes.
  datatype Setup = Setup(conversation: C.Config, minDelay: int, maxDelay: int, maxTurnBytes: nat, decisionWindow: int,
                         sustain: int, settle: int, interruption: bool, speculation: bool, timeout: int, cooldown: int,
                         maxTranscriptBytes: nat, maxDeltaBytes: nat, maxAttempts: nat)

  datatype TurnState = Idle | Listening | Speaking | PossibleEnd | Waiting

  // ready: an endpoint was reached while a pause was undecided.
  datatype Input = Input(active: bool, realtime: bool, buffer: Bytes, state: TurnState, turn: string, epoch: nat,
                         end: Option<int>, attempted: bool, hasSpeech: bool, ready: bool)

  datatype PauseState = NoPause | Paused | Confirmed | Recovered

  datatype Pause = Pause(state: PauseState, id: string, generation: string, turn: string, started: int, revision: nat,
                         attempted: nat, notBefore: int, resumed: bool, samples: nat)

  datatype Generation = Generation(done: bool, textOnly: bool, request: seq<C.Message>)

  // The context a committed turn is answered in; 0 is none. cancellable: its
  // cancel function is still held.
  datatype Response = Response(ctx: nat, live: bool, cancellable: bool, turn: string, used: bool)

  datatype Key = Key(id: string, turn: string, revision: nat)

  datatype WorkState = Running | Ready | Committed | Promoted | Invalidated | Cancelled

  // Where the worker of a speculation is: in the recogniser, in the language
  // model, reading its stream, holding a delta it has no room for, on its way out, gone.
  datatype Phase = AtStt | AtModel | AtStream | Holding(text: C.Text) | Leaving | Gone

  // produced and delivered are everything ever buffered and ever read from the stream.
  datatype Work = Work(key: Key, state: WorkState, live: bool, committed: bool, ready: bool, phase: Phase,
                       result: Option<C.Text>, request: seq<C.Message>, deltas: seq<C.Text>, bytes: nat,
                       terminal: Option<bool>, generation: string, adopted: bool, started: int,
                       produced: seq<C.Text>, delivered: seq<C.Text>)

  datatype Speculation = Speculation(works: seq<Work>, current: Option<nat>, busy: bool, lastAttempt: Option<int>,
                                     attemptTurn: string, attempts: nat)

  // What the session decided, in order.
  datatype Entry =
    | Suspected(id: string)
    | PauseConfirmed(id: string)
    | PauseRecovered(id: string)
    | TurnCommitted(turn: string, ctx: nat, lo: nat, hi: nat, listen: nat, spoke: nat, audio: Bytes, key: Option<Key>)
    | DetectorLaunched(epoch: nat, end: int, turn: string)
    | ResponseDropped(ctx: nat)
    | GenerationBegun(ctx: nat, turn: string, generation: string)
    | WorkPromoted(work: nat, ctx: nat, generation: string)

  // ids are all identifiers ever issued, spent the turns that entered history.
  // stream is every input byte accepted; the buffer is its tail from lo. listen is
  // where the current listening began, spoke where the current turn's speech began.
  // left is what the writer of each generation was handed and has not recorded yet,
  // granted what the current window has granted and nobody has recorded yet.
  datatype Session = Session(closed: bool, books: P.Books, generation: Generation, response: Response, input: Input,
                             pause: Pause, spec: Speculation, ids: set<string>, spent: set<string>, contexts: nat,
                             stream: Bytes, lo: nat, listen: nat, spoke: nat, log: seq<Entry>,
                             left: map<string, int>, granted: int)

  function Initial(u: Setup, systemItem: string): Session {
    Session(false, P.Books([C.SystemItem(u.conversation, systemItem)], "", false, None, None, false),
            Generation(false, false, []), Response(0, false, false, "", false),
            Input(false, false, [], Idle, "", 0, None, false, false, false),
            Pause(NoPause, "", "", "", 0, 0, 0, 0, false, 0),
            Speculation([], None, false, None, "", 0), {systemItem}, {}, 0, [], 0, 0, 0, [], map[], 0)
  }

  function Note(s: Session, e: Entry): Session { s.(log := s.log + [e]) }

  predicate MidTurn(i: Input) { i.state == Speaking || i.state == PossibleEnd || i.state == Waiting }

  predicate Pending(s: Session) { s.pause.state == Paused }

  // --- small locked helpers ---------------------------------------------------

  function CancelResponse(s: Session): (d: Session)
    ensures d.ids == s.ids
  {
    if !s.response.cancellable then s
    else Note(s.(response := s.response.(live := false, cancellable := false)), ResponseDropped(s.response.ctx))
  }

  function NewResponse(s: Session, turn: string): (d: Session)
    ensures d.ids == s.ids
  {
    var c := CancelResponse(s);
    c.(contexts := c.contexts + 1, response := Response(c.contexts + 1, !c.closed, true, turn, false))
  }

  function Ended(w: Work, state: WorkState): Work {
    if w.state == Invalidated || w.state == Cancelled then w
    else w.(state := state, live := false, result := None, deltas := [], bytes := 0)
  }

  function SetWork(s: Session, k: nat, w: Work): Session
    requires k < |s.spec.works|
  {
    s.(spec := s.spec.(works := s.spec.works[k := w]))
  }

  // Promoted work belongs to its generation and is not touched by input.
  function InvalidateSpeculation(s: Session, state: WorkState): (d: Session)
    ensures d.ids == s.ids
  {
    match s.spec.current
    case None => s
    case Some(k) =>
      if k >= |s.spec.works| || s.spec.works[k].state == Promoted then s
      else SetWork(s, k, Ended(s.spec.works[k], state))
  }

  function ResetEndpoint(s: Session): Session {
    s.(input := s.input.(epoch := s.input.epoch + 1, end := None, attempted := false, ready := false))
  }

  function InvalidateInput(s: Session): Session { ResetEndpoint(InvalidateSpeculation(s, Invalidated)) }

  // The buffer is dropped and listening starts over here.
  function DropAudio(s: Session): Session {
    s.(input := s.input.(buffer := []), lo := |s.stream|, listen := |s.stream|, spoke := |s.stream|)
  }

  function InvalidatePause(s: Session): Session {
    s.(pause := s.pause.(revision := s.pause.revision + 1, state := NoPause))
  }

  function CancelGenerationLocked(s: Session): (d: Session)
    ensures d.ids == s.ids
  {
    CancelResponse(InvalidatePause(s.(books := P.EndGeneration(s.books))))
  }

  function StartGenerationLocked(u: Setup, s: Session, turn: string, textOnly: bool, item: string, gen: string): Session
    requires s.books.items != []
  {
    if s.closed then s
    else
      InvalidatePause(s.(books := P.BeginGeneration(u.conversation, s.books, item, turn, gen, textOnly),
                         generation := Generation(false, textOnly, []), ids := s.ids + {item, gen},
                         spent := s.spent + {turn}))
  }

  // --- speculation validity ---------------------------------------------------

  predicate ValidWork(s: Session, k: nat)
    requires k < |s.spec.works|
  {
    var w := s.spec.works[k];
    if w.state == Promoted then w.live && !s.closed && w.generation == s.books.gen && s.books.live
    else
      && s.spec.current == Some(k) && w.live && !s.closed
      && (w.committed || (s.input.turn == w.key.turn && s.input.epoch == w.key.revision))
  }

  predicate Markable(s: Session) {
    s.spec.current.Some? && s.spec.current.value < |s.spec.works|
    && ValidWork(s, s.spec.current.value) && !s.spec.works[s.spec.current.value].committed
  }

  // The commit marks the speculation made for exactly this input revision.
  function MarkCommitted(s: Session): (d: Session)
    ensures d.ids == s.ids
  {
    if !Markable(s) then s
    else
      var k := s.spec.current.value;
      SetWork(s, k, s.spec.works[k].(committed := true, state := Committed))
  }

  function MarkedKey(s: Session): Option<Key> {
    if Markable(s) then Some(s.spec.works[s.spec.current.value].key) else None
  }

  // --- committing a turn ------------------------------------------------------

  function CommitTurn(s: Session): (d: Session)
    ensures d.ids == s.ids
  {
    if Pending(s) then s.(input := s.input.(ready := true))
    else
      var key := MarkedKey(s);
      var d := ResetEndpoint(MarkCommitted(s));
      if d.input.buffer == [] then DropAudio(d.(input := d.input.(state := Listening)))
      else
        var r := NewResponse(d, d.input.turn);
        var e := Note(r, TurnCommitted(r.input.turn, r.response.ctx, r.lo, |r.stream|, r.listen, r.spoke,
                                       r.input.buffer, key));
        DropAudio(e.(input := e.input.(turn := "", state := Listening)))
  }

  // --- deciding a pause -------------------------------------------------------

  function ConfirmPause(s: Session): (d: Session)
    ensures d.ids == s.ids
  {
    if !Pending(s) then s
    else if s.pause.generation != s.books.gen then InvalidatePause(s)
    else
      var d := CancelGenerationLocked(s);
      var e := Note(d.(pause := d.pause.(state := Confirmed)), PauseConfirmed(d.pause.id));
      if e.input.ready then CommitTurn(e) else e
  }

  function Unnoted(s: Session): Session {
    s.(pause := s.pause.(revision := s.pause.revision + 1, state := Recovered),
       books := P.PauseTimeline(s.books, false))
  }

  // The pause is over and the output goes on.
  function Released(s: Session): Session { Note(Unnoted(s), PauseRecovered(s.pause.id)) }

  function RecoverPause(s: Session): (d: Session)
    ensures d.ids == s.ids
  {
    if !Pending(s) then s
    else if s.books.gen != s.pause.generation || !s.books.live then InvalidatePause(s)
    else
      var e := DropAudio(InvalidateInput(Released(s)));
      e.(input := e.input.(turn := "", hasSpeech := false, state := Listening))
  }

  predicate Recoverable(s: Session) {
    && s.books.gen != "" && s.books.live
    && (!s.generation.done || (s.books.timeline.Some? && s.books.timeline.value.sent > s.books.timeline.value.played))
  }

  function Opened(u: Setup, s: Session, generation: string, id: string, opening: bool, now: int): Session {
    s.(pause := Pause(Paused, id, generation, s.input.turn, now, s.pause.revision + 1, 0,
                      if opening then now + u.sustain else now, !opening, 0))
  }

  function OpenPause(u: Setup, s: Session, generation: string, id: string, opening: bool, now: int): Session {
    var d := Opened(u, s, generation, id, opening, now);
    if !Recoverable(d) then d.(pause := d.pause.(state := Recovered))
    else Note(d.(books := P.PauseTimeline(d.books, true)), Suspected(id))
  }

  function BeginPause(u: Setup, s: Session, generation: string, id: string, opening: bool, now: int): Session {
    if s.closed || !u.interruption || !s.input.active || !s.input.realtime then s
    else if generation == "" || id == "" || |id| > 128 || generation != s.books.gen || !MidTurn(s.input) then s
    else if Pending(s) && s.pause.generation == generation && s.pause.id == id then s
    else if Pending(s) && s.pause.generation == generation then
      ConfirmPause(s.(pause := s.pause.(id := id, resumed := true)))
    else OpenPause(u, s, generation, id, opening, now)
  }

  // New evidence during a pause: the classifier starts over, the deadline stays.
  function PauseChanged(u: Setup, s: Session): Session {
    if !Pending(s) then s
    else s.(pause := s.pause.(revision := s.pause.revision + 1,
                              notBefore := (if s.input.end.Some? then s.input.end.value else 0) + u.settle))
  }

  // --- input events -----------------------------------------------------------

  function StartInput(s: Session): Session {
    if s.closed || s.input.active then s
    else
      var d := DropAudio(InvalidateInput(s));
      d.(input := d.input.(active := true, realtime := true, state := Listening))
  }

  predicate Hearing(s: Session) { s.input.active && s.input.realtime }

  function SpeechStart(u: Setup, s: Session, generation: string, id: string, turn: string, now: int): Session {
    if !Hearing(s) || s.input.state == Speaking then s
    else
      var d := CancelResponse(s);
      var opening := d.input.state == Listening;
      var e := if opening then d.(input := d.input.(turn := turn, hasSpeech := false), ids := d.ids + {turn},
                                  spoke := |d.stream|) else d;
      var f := InvalidateInput(e);
      var g := f.(input := f.input.(state := Speaking));
      if Pending(g) then
        var renamed := if generation == g.books.gen && id != "" then id else g.pause.id;
        ConfirmPause(g.(pause := g.pause.(resumed := true, id := renamed)))
      else if generation != "" && id != "" then BeginPause(u, g, generation, id, opening, now)
      else g
  }

  function EndSpeech(u: Setup, s: Session, valid: bool, now: int): Session {
    if !Hearing(s) || s.input.state != Speaking then s
    else if !valid && !s.input.hasSpeech then
      if Pending(s) then RecoverPause(s)
      else
        var d := DropAudio(InvalidateInput(s));
        d.(input := d.input.(turn := "", state := Listening))
    else
      var d := s.(input := s.input.(hasSpeech := s.input.hasSpeech || valid, end := Some(now)));
      var e := PauseChanged(u, d);
      e.(input := e.input.(attempted := false, state := PossibleEnd))
  }

  function CancelInput(s: Session, stop: bool): Session {
    if !s.input.realtime then
      var d := DropAudio(CancelResponse(s));
      d.(input := d.input.(active := false, state := Idle))
    else
      var d := RecoverPause(InvalidateSpeculation(s, Cancelled));
      var e := DropAudio(CancelResponse(InvalidateInput(d)));
      e.(input := e.input.(turn := "", active := e.input.active && !stop,
                           state := if stop || !e.input.active then Idle else Listening))
  }

  const PRE_ROLL: nat := 16000

  function Last(data: Bytes, n: nat): Bytes { if |data| > n then data[|data| - n..] else data }

  // While listening only the pre-roll is kept; during a turn everything, up to a limit.
  function AppendAudio(s: Session, u: Setup, data: Bytes): Session {
    if !Hearing(s) || |data| % 2 != 0 || |data| > 16384 then s
    else if s.input.state == Listening then
      s.(input := s.input.(buffer := Last(s.input.buffer + data, PRE_ROLL)), stream := s.stream + data,
         lo := Max(s.lo, |s.stream| + |data| - PRE_ROLL))
    else if |s.input.buffer| + |data| > u.maxTurnBytes then
      var d := DropAudio(InvalidateInput(ConfirmPause(s)));
      d.(input := d.input.(active := false, state := Idle))
    else
      s.(input := s.input.(buffer := s.input.buffer + data), stream := s.stream + data,
         pause := if Pending(s) && s.input.state == Speaking then s.pause.(samples := s.pause.samples + |data| / 2)
                  else s.pause)
  }

  // --- the endpoint loop ------------------------------------------------------

  function StartWork(s: Session, id: string, now: int): Session {
    var w := Work(Key(id, s.input.turn, s.input.epoch), Running, true, false, false, AtStt, None, [], [], 0, None,
                  "", false, now, [], []);
    s.(spec := s.spec.(works := s.spec.works + [w], current := Some(|s.spec.works|), busy := true,
                       lastAttempt := Some(now), attempts := s.spec.attempts + 1), ids := s.ids + {id})
  }

  // The first attempt never waits.
  predicate Cooling(u: Setup, spec: Speculation, now: int) {
    spec.lastAttempt.Some? && now - spec.lastAttempt.value < u.cooldown
  }

  function StartSpeculation(u: Setup, s: Session, id: string, now: int): Session {
    if !u.speculation || s.closed || !s.input.hasSpeech || s.input.buffer == [] then s
    else if s.spec.current.Some? && s.spec.current.value < |s.spec.works|
            && s.spec.works[s.spec.current.value].key.turn == s.input.turn
            && s.spec.works[s.spec.current.value].key.revision == s.input.epoch then s
    else
      var d := if s.spec.attemptTurn != s.input.turn
               then s.(spec := s.spec.(attemptTurn := s.input.turn, attempts := 0)) else s;
      if d.spec.busy || Cooling(u, d.spec, now) || d.spec.attempts >= u.maxAttempts then d
      else if Pending(d) && d.pause.samples < 12800 then d
      else StartWork(d, id, now)
  }

  function CheckPause(u: Setup, s: Session, idle: bool, now: int): Session {
    if !Pending(s) then s
    else if now >= s.pause.started + u.decisionWindow then ConfirmPause(s)
    else if !idle || s.pause.attempted == s.pause.revision || now < s.pause.notBefore then s
    else s.(pause := s.pause.(attempted := s.pause.revision))
  }

  function CheckEndpoint(u: Setup, s: Session, free: bool, id: string, now: int): Session {
    if s.input.end.None? || s.input.ready then s
    else if now >= s.input.end.value + u.maxDelay then CommitTurn(s)
    else if s.input.attempted || !free || now < s.input.end.value + u.minDelay then s
    else
      var d := StartSpeculation(u, s.(input := s.input.(attempted := true, state := Waiting)), id, now);
      Note(d, DetectorLaunched(d.input.epoch, d.input.end.value, d.input.turn))
  }

  // One pass of the input loop; free and idle say that no detector and no
  // classifier is running.
  function Poll(u: Setup, s: Session, free: bool, idle: bool, id: string, now: int): Session
  {
    if s.closed then InvalidatePause(s) else
    var d := CheckPause(u, s, idle, now);
    if d.input.end.None? then d else CheckEndpoint(u, d, free, id, now)
  }

  datatype Detection = DetectorFailed | Complete | Continuation

  function DetectorResult(u: Setup, s: Session, epoch: nat, result: Detection): Session {
    if epoch != s.input.epoch || s.input.end.None? || s.closed then s
    else
      var d := if result.DetectorFailed? then s else PauseChanged(u, s);
      match result
      case DetectorFailed => InvalidateSpeculation(d, Invalidated)
      case Complete => CommitTurn(d)
      case Continuation =>
        var e := InvalidateSpeculation(d, Invalidated);
        e.(input := e.input.(state := Waiting))
  }

  datatype Classification = ClassifierFailed | Backchannel | FalseAlarm | Interruption | Ambiguous

  function ClassifierResult(u: Setup, s: Session, revision: nat, id: string, result: Classification,
      now: int): Session {
    if !Pending(s) || s.closed || id != s.pause.id || revision != s.pause.revision
       || s.pause.generation != s.books.gen then s
    else if now >= s.pause.started + u.decisionWindow then ConfirmPause(s)
    else
      match result
      case Ambiguous => s
      case ClassifierFailed => ConfirmPause(s)
      case Interruption => ConfirmPause(s)
      case _ => if s.input.state == Speaking || s.pause.resumed then ConfirmPause(s) else RecoverPause(s)
  }

  function Semantic(u: Setup, s: Session, generation: string, turn: string, id: string): Session {
    if !Pending(s) || generation != s.books.gen || turn != s.pause.turn
       || id != s.pause.id then s else PauseChanged(u, s)
  }

  // --- playback events --------------------------------------------------------

  function PlaybackPaused(s: Session, generation: string, id: string, frames: int): Session {
    if !Pending(s) || generation != s.books.gen || id != s.pause.id || s.books.timeline.None? || frames < 0 then s
    else s.(books := P.PauseTimeline(P.RecordSource(s.books, frames).0, true))
  }

  function PlaybackFailed(s: Session, generation: string, id: string): Session {
    if generation == "" || generation != s.books.gen then s
    else if id != "" && (s.pause.id != id || s.pause.generation != generation) then s
    else if Pending(s) then ConfirmPause(s) else CancelGenerationLocked(s)
  }

  // --- generation events ------------------------------------------------------

  function StartGeneration(u: Setup, s: Session, turn: string, textOnly: bool, item: string, gen: string): Session
    requires s.books.items != []
  {
    var d := CancelResponse(InvalidateSpeculation(s, Invalidated));
    StartGenerationLocked(u, d.(ids := d.ids + {turn}), turn, textOnly, item, gen)
  }

  function CancelGeneration(s: Session, id: string): Session {
    if id != "" && id != s.books.gen then s else CancelGenerationLocked(InvalidateSpeculation(s, Cancelled))
  }

  function MarkDone(s: Session, id: string): Session {
    if !P.Active(s.books, id) || s.generation.done then s
    else s.(generation := s.generation.(done := true), books := P.AudioDone(s.books))
  }

  function NewTextTurn(s: Session, turn: string): Session {
    if s.input.active then s
    else
      var d := NewResponse(InvalidateSpeculation(s, Invalidated), turn);
      d.(ids := d.ids + {turn})
  }

  predicate Usable(s: Session, ctx: nat) {
    ctx != 0 && ctx == s.response.ctx && s.response.live && !s.closed && !s.response.used
  }

  // The generation that answers a turn is asked with the history as it then stands.
  function OpenAnswer(u: Setup, s: Session, ctx: nat, textOnly: bool, item: string, gen: string,
      request: seq<C.Message>): Session
    requires s.books.items != []
  {
    var e := StartGenerationLocked(u, s, s.response.turn, textOnly, item, gen);
    Note(e.(generation := e.generation.(request := request)), GenerationBegun(ctx, s.response.turn, gen))
  }

  function CommitResponse(u: Setup, s: Session, ctx: nat, text: C.Text, textOnly: bool, user: string, item: string,
      gen: string): Session
    requires s.books.items != []
  {
    var b := P.FinalizeCurrent(s.books);
    if b.items == [] then s
    else
      var (items, outcome) := C.CommitUser(u.conversation, b.items, user, s.response.turn, text);
      if outcome == C.Limit then s.(books := b)
      else
        var request := C.Context(u.conversation, items, []);
        var d := s.(books := b.(items := items), response := s.response.(used := true), ids := s.ids + {user},
                    spent := s.spent + {s.response.turn});
        if request.None? then d else OpenAnswer(u, d, ctx, textOnly, item, gen, request.value)
  }

  // The response is accepted and its generation starts.
  predicate Begins(u: Setup, s: Session, ctx: nat, text: C.Text, user: string)
    requires s.books.items != []
  {
    && Usable(s, ctx) && !u.conversation.blank(text) && C.Context(u.conversation, s.books.items, text).Some?
    && CommitsText(u, s, text, user)
  }

  predicate CommitsText(u: Setup, s: Session, text: C.Text, user: string) {
    var items := P.FinalizeCurrent(s.books).items;
    items != [] && var r := C.CommitUser(u.conversation, items, user, s.response.turn, text);
                   r.1 != C.Limit && C.Context(u.conversation, r.0, []).Some?
  }

  // A context is consumed once: its user text enters history and its generation starts.
  function BeginResponse(u: Setup, s: Session, ctx: nat, text: C.Text, textOnly: bool, user: string, item: string,
      gen: string): Session
    requires s.books.items != []
  {
    if !Usable(s, ctx) then s
    else if u.conversation.blank(text) then s.(response := s.response.(used := true))
    else if C.Context(u.conversation, s.books.items, text).None? then s
    else CommitResponse(u, s, ctx, text, textOnly, user, item, gen)
  }

  // --- the speculative worker -------------------------------------------------

  function Leave(s: Session, k: nat, w: Work): Session
    requires k < |s.spec.works|
  {
    SetWork(s, k, w.(phase := Leaving))
  }

  predicate At(s: Session, k: nat, phase: Phase) { k < |s.spec.works| && s.spec.works[k].phase == phase }

  // The recogniser answered; the conversation is peeked at, never written.
  function SttResult(u: Setup, s: Session, k: nat, text: Option<C.Text>): Session
    requires At(s, k, AtStt) && s.books.items != []
  {
    var w := s.spec.works[k];
    if !ValidWork(s, k) then Leave(s, k, w)
    else if text.None? || |text.value| > u.maxTranscriptBytes then Leave(s, k, Ended(w, Cancelled))
    else if u.conversation.blank(text.value) then
      Leave(s, k, w.(result := Some([]), ready := true, terminal := Some(true),
                     state := if w.committed then w.state else Ready))
    else
      match C.Context(u.conversation, s.books.items, text.value)
      case None => Leave(s, k, Ended(w.(result := text), Cancelled))
      case Some(request) => SetWork(s, k, w.(result := text, request := request, phase := AtModel))
  }

  function ModelResult(s: Session, k: nat, ok: bool): Session
    requires At(s, k, AtModel)
  {
    var w := s.spec.works[k];
    if !ValidWork(s, k) then Leave(s, k, w)
    else if !ok then Leave(s, k, Ended(w, Cancelled))
    else SetWork(s, k, w.(ready := true, state := if w.committed then w.state else Ready, phase := AtStream))
  }

  predicate NoRoom(u: Setup, w: Work, text: C.Text) { w.bytes + |text| > u.maxDeltaBytes || |w.deltas| >= 1024 }

  function Push(w: Work, text: C.Text): Work {
    w.(deltas := w.deltas + [text], bytes := w.bytes + |text|, produced := w.produced + [text], phase := AtStream)
  }

  function Offer(u: Setup, s: Session, k: nat, text: C.Text): Session
    requires k < |s.spec.works|
  {
    var w := s.spec.works[k];
    if !NoRoom(u, w, text) then SetWork(s, k, Push(w, text))
    else if w.state == Promoted && |text| > u.maxDeltaBytes then Leave(s, k, w.(terminal := Some(false)))
    else if w.state != Promoted || |text| > u.maxDeltaBytes then Leave(s, k, Ended(w, Cancelled))
    else SetWork(s, k, w.(phase := Holding(text)))
  }

  function StreamDelta(u: Setup, s: Session, k: nat, text: C.Text): Session
    requires At(s, k, AtStream)
  {
    if !ValidWork(s, k) then Leave(s, k, s.spec.works[k])
    else if text == [] then s else Offer(u, s, k, text)
  }

  function StreamEnd(s: Session, k: nat, eof: bool): Session
    requires At(s, k, AtStream)
  {
    var w := s.spec.works[k];
    if !ValidWork(s, k) then Leave(s, k, w)
    else if !eof && w.state != Promoted then Leave(s, k, Ended(w, Cancelled))
    else Leave(s, k, w.(terminal := Some(eof)))
  }

  // A held delta is offered again whenever the stream's reader made room.
  function Retry(u: Setup, s: Session, k: nat): Session
    requires k < |s.spec.works| && s.spec.works[k].phase.Holding?
  {
    if !ValidWork(s, k) then Leave(s, k, s.spec.works[k]) else Offer(u, s, k, s.spec.works[k].phase.text)
  }

  function WorkerGone(s: Session, k: nat): Session
    requires At(s, k, Leaving)
  {
    var d := SetWork(s, k, s.spec.works[k].(phase := Gone));
    d.(spec := d.spec.(busy := false))
  }

  function WorkTimeout(s: Session, k: nat): Session
    requires k < |s.spec.works|
  {
    if s.spec.current == Some(k) && s.spec.works[k].live && s.spec.works[k].state != Promoted
    then SetWork(s, k, Ended(s.spec.works[k], Cancelled)) else s
  }

  // --- promotion and the adopted stream ---------------------------------------

  // One look of the promotion loop; a look that has to wait changes nothing.
  function Promote(u: Setup, s: Session, ctx: nat, key: Key, user: string, item: string, gen: string, now: int): Session
    requires s.books.items != []
  {
    if !u.speculation || !Usable(s, ctx) || s.spec.current.None? || s.spec.current.value >= |s.spec.works| then s
    else
      var k := s.spec.current.value;
      var w := s.spec.works[k];
      if w.key != key || !w.committed || w.state == Promoted || !ValidWork(s, k) then s
      else if now >= w.started + u.timeout then SetWork(s, k, Ended(w, Cancelled))
      else if !w.ready || w.result.None? then s
      else Adopt(u, s, k, ctx, user, item, gen)
  }

  function Adopt(u: Setup, s: Session, k: nat, ctx: nat, user: string, item: string, gen: string): Session
    requires s.books.items != [] && k < |s.spec.works| && s.spec.works[k].result.Some?
  {
    var w := s.spec.works[k];
    if w.result.value == [] then
      Note(SetWork(s.(response := s.response.(used := true)), k, w.(state := Promoted, generation := "")),
           WorkPromoted(k, ctx, ""))
    else
      var d := BeginResponse(u, s, ctx, w.result.value, false, user, item, gen);
      if !Begins(u, s, ctx, w.result.value, user) then SetWork(d.(spec := s.spec), k, Ended(w, Cancelled))
      else
        var adopted := w.request == d.generation.request;
        var v := w.(state := Promoted, generation := gen, adopted := adopted);
        // An answer to superseded history is discarded; the transcript stays.
        var x := if adopted then v else v.(live := false, deltas := [], bytes := 0);
        Note(SetWork(d.(spec := s.spec), k, x), WorkPromoted(k, ctx, gen))
  }

  // The reader takes the next delta; everything else leaves the buffer alone.
  function ReadDelta(s: Session, k: nat): Session
    requires k < |s.spec.works|
  {
    var w := s.spec.works[k];
    if !w.adopted || !ValidWork(s, k) || s.books.gen != w.generation || w.deltas == [] then s
    else SetWork(s, k, w.(deltas := w.deltas[1..],
                          bytes := if w.bytes >= |w.deltas[0]| then w.bytes - |w.deltas[0]|
                                   else 0, delivered := w.delivered + [w.deltas[0]]))
  }

  function CloseStream(s: Session, k: nat): Session
    requires k < |s.spec.works|
  {
    SetWork(s, k, s.spec.works[k].(live := false, deltas := [], bytes := 0, result := None))
  }

  // The context of an adopted generation ended.
  function GenerationGone(s: Session, k: nat): Session
    requires k < |s.spec.works|
  {
    var w := s.spec.works[k];
    if w.state == Promoted && !(s.books.live && w.generation == s.books.gen) then SetWork(s, k, w.(live := false))
       else s
  }

  function Close(s: Session): Session {
    s.(closed := true, books := s.books.(live := false), response := s.response.(live := false))
  }
}
