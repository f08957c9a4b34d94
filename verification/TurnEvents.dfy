// Input, detector, classifier, playback and generation events of a live session.
module TurnEvents {
  import opened Arithmetic
  import opened Options
  import C = ConversationModel
  import B = ConversationBounds
  import F = Flow
  import P = Playback
  import opened TurnModel
  import opened TurnInvariant
  import opened TurnSteps

  // --- speech ends, input stops ----------------------------------------------

  lemma EndSpeechOk(u: Setup, s: Session, valid: bool, now: int)
    requires Inv(u, s)
    ensures Inv(u, EndSpeech(u, s, valid, now))
  {
    InputShape(u, s);
    if Hearing(s) && s.input.state == Speaking {
      if !valid && !s.input.hasSpeech {
        if Pending(s) { RecoverPauseOk(u, s); } else { MisfireOk(u, s); }
      } else {
        var i := s.input.(hasSpeech := s.input.hasSpeech || valid, end := Some(now), attempted := false,
                          state := PossibleEnd);
        hide Inv;
        MidTurnOk(u, s, i);
        PauseChangedOk(u, s.(input := i));
      }
    }
  }

  lemma MisfireOk(u: Setup, s: Session)
    requires Inv(u, s) && !Pending(s) && s.input.active
    ensures var d := DropAudio(InvalidateInput(s)); Inv(u, d.(input := d.input.(turn := "", state := Listening)))
  {
    hide Inv, InvalidateSpeculation;
    InvalidateKeeps(s, Invalidated);
    RelistenOk(u, s, "", s.input.hasSpeech);
  }

  lemma CancelInputOk(u: Setup, s: Session, stop: bool)
    requires Inv(u, s)
    ensures Inv(u, CancelInput(s, stop))
  {
    InputShape(u, s);
    if s.input.realtime {
      CancelRealtimeOk(u, s, stop);
    } else {
      IdleQuiet(u, s);
      hide Inv, CancelResponse;
      CancelResponseOk(u, s);
      ListenOk(u, CancelResponse(s), s.input.(buffer := [], active := false, state := Idle));
    }
  }

  lemma IdleQuiet(u: Setup, s: Session)
    requires Inv(u, s) && !s.input.active
    ensures s.input.state == Idle && !Pending(s) && s.input.end.None? && !s.input.ready && !s.input.attempted
  {}

  lemma CancelRealtimeOk(u: Setup, s: Session, stop: bool)
    requires Inv(u, s) && s.input.realtime
    ensures Inv(u, CancelInput(s, stop))
  {
    hide Inv, InvalidateSpeculation, RecoverPause, CancelResponse;
    InvalidateSpeculationOk(u, s, Cancelled);
    var c := InvalidateSpeculation(s, Cancelled);
    RecoverPauseOk(u, c);
    var d := RecoverPause(c);
    InputShape(u, d);
    var active := d.input.active && !stop;
    var i := d.input.(epoch := d.input.epoch + 1, end := None, attempted := false, ready := false, buffer := [],
                      turn := "", active := active, state := if stop || !d.input.active then Idle else Listening);
    InvalidateSpeculationOk(u, d, Invalidated);
    var e := InvalidateSpeculation(d, Invalidated);
    CancelResponseOk(u, e);
    ListenOk(u, CancelResponse(e), i);
    CancelShape(s, stop, d, i);
  }

  lemma CancelShape(s: Session, stop: bool, d: Session, i: Input)
    requires s.input.realtime && d == RecoverPause(InvalidateSpeculation(s, Cancelled))
    requires i == d.input.(epoch := d.input.epoch + 1, end := None, attempted := false, ready := false, buffer := [],
                           turn := "", active := d.input.active && !stop,
                           state := if stop || !d.input.active then Idle else Listening)
    ensures CancelInput(s, stop) == DropAudio(CancelResponse(InvalidateSpeculation(d, Invalidated))).(input := i)
  {
    hide InvalidateSpeculation, RecoverPause;
    InvalidateKeeps(d, Invalidated);
  }

  // --- audio -----------------------------------------------------------------

  lemma CommitsExtend(log: seq<Entry>, stream: Bytes, listen: nat, data: Bytes)
    requires CommitsOk(log, stream, listen)
    ensures CommitsOk(log, stream + data, listen)
  {
    forall i | 0 <= i < |log| ensures CommitOk(log[i], stream + data, listen) {
      assert CommitOk(log[i], stream, listen);
      if log[i].TurnCommitted? { assert (stream + data)[log[i].lo..log[i].hi] == stream[log[i].lo..log[i].hi]; }
    }
  }

  // While listening the buffer is the newest part of the stream, up to the pre-roll.
  lemma PreRollOk(buffer: Bytes, stream: Bytes, lo: nat, listen: nat, spoke: nat, data: Bytes)
    requires AudioOk(Listening, buffer, stream, lo, listen, spoke)
    ensures AudioOk(Listening, Last(buffer + data, PRE_ROLL), stream + data, Max(lo, |stream| + |data| - PRE_ROLL),
                    listen, spoke)
  {
    assert buffer + data == (stream + data)[lo..];
  }

  lemma KeepAllOk(state: TurnState, buffer: Bytes, stream: Bytes, lo: nat, listen: nat, spoke: nat, data: Bytes)
    requires AudioOk(state, buffer, stream, lo, listen, spoke) && Mid(state)
    ensures AudioOk(state, buffer + data, stream + data, lo, listen, spoke)
  {
    assert buffer + data == (stream + data)[lo..];
  }

  lemma AppendAudioOk(u: Setup, s: Session, data: Bytes)
    requires Inv(u, s)
    ensures Inv(u, AppendAudio(s, u, data))
  {
    hide P.Core, TurnLogOk;
    InputShape(u, s);
    if !Hearing(s) || |data| % 2 != 0 || |data| > 16384 {
    } else if s.input.state == Listening {
      hide P.BooksOk, AudioOk, CommitsOk, PauseOk, ResponseOk, IssuedOk, TurnsOk, TurnLogOk, SpecOk, PromotedOk;
      PreRollOk(s.input.buffer, s.stream, s.lo, s.listen, s.spoke, data);
      CommitsExtend(s.log, s.stream, s.listen, data);
    } else if |s.input.buffer| + |data| > u.maxTurnBytes {
      InputLimitOk(u, s);
    } else {
      hide P.BooksOk, AudioOk, CommitsOk, ResponseOk, IssuedOk, TurnsOk, TurnLogOk, SpecOk, PromotedOk;
      KeepAllOk(s.input.state, s.input.buffer, s.stream, s.lo, s.listen, s.spoke, data);
      CommitsExtend(s.log, s.stream, s.listen, data);
    }
  }

  lemma InputLimitOk(u: Setup, s: Session)
    requires Inv(u, s)
    ensures var d := DropAudio(InvalidateInput(ConfirmPause(s)));
            Inv(u, d.(input := d.input.(active := false, state := Idle)))
  {
    hide Inv, ConfirmPause, InvalidateSpeculation;
    ConfirmPauseOk(u, s);
    var c := ConfirmPause(s);
    InvalidateSpeculationOk(u, c, Invalidated);
    var i := c.input.(epoch := c.input.epoch + 1, end := None, attempted := false, ready := false, buffer := [],
                      active := false, state := Idle);
    ListenOk(u, InvalidateSpeculation(c, Invalidated), i);
  }

  // --- the endpoint loop -----------------------------------------------------

  lemma CheckPauseOk(u: Setup, s: Session, idle: bool, now: int)
    requires Inv(u, s)
    ensures Inv(u, CheckPause(u, s, idle, now))
    ensures CheckPause(u, s, idle, now) == s.(pause := CheckPause(u, s, idle, now).pause)
            || CheckPause(u, s, idle, now) == ConfirmPause(s)
  {
    hide Inv, ConfirmPause;
    ConfirmPauseOk(u, s);
    PauseFieldsOk(u, s, s.pause.(attempted := s.pause.revision));
  }

  lemma SpecCounters(u: Setup, s: Session, turn: string)
    requires Inv(u, s)
    ensures Inv(u, s.(spec := s.spec.(attemptTurn := turn, attempts := 0)))
  {
    hide P.BooksOk, InputOk, AudioOk, CommitsOk, PauseOk, ResponseOk, IssuedOk, TurnsOk, TurnLogOk, WorkOk, PromotedOk;
  }

  // New work starts only when the previous worker is gone.
  lemma StartWorkSpec(u: Setup, s: Session, id: string, now: int)
    requires SpecOk(u, s.spec, s.ids, s.books.gen, s.generation.request) && !s.spec.busy
    ensures var d := StartWork(s, id, now); SpecOk(u, d.spec, d.ids, d.books.gen, d.generation.request)
  {
    var d := StartWork(s, id, now);
    var w := d.spec.works[|s.spec.works|];
    assert WorkOk(u, w, s.books.gen, s.generation.request);
    hide WorkOk;
  }

  lemma StartWorkPromoted(log: seq<Entry>, works: seq<Work>, w: Work)
    requires PromotedOk(log, works)
    ensures PromotedOk(log, works + [w])
  {}

  lemma MoreIds(u: Setup, s: Session, id: string)
    requires IssuedOk(s.books.items, s.books.gen, s.ids, s.spent) && id != ""
    requires TurnsOk(s.ids, s.spent, s.input.turn, s.input.state, s.response)
    requires TurnLogOk(s.log, s.ids, s.spent, s.input.turn, s.input.state)
    ensures IssuedOk(s.books.items, s.books.gen, s.ids + {id}, s.spent)
    ensures TurnsOk(s.ids + {id}, s.spent, s.input.turn, s.input.state, s.response)
    ensures TurnLogOk(s.log, s.ids + {id}, s.spent, s.input.turn, s.input.state)
  {}

  lemma StartWorkOk(u: Setup, s: Session, id: string, now: int)
    requires Inv(u, s) && Unused(s, id) && !s.spec.busy
    ensures Inv(u, StartWork(s, id, now))
  {
    hide P.BooksOk, InputOk, AudioOk, CommitsOk, PauseOk, ResponseOk, IssuedOk, TurnsOk, TurnLogOk, SpecOk, PromotedOk;
    StartWorkSpec(u, s, id, now);
    StartWorkPromoted(s.log, s.spec.works, StartWork(s, id, now).spec.works[|s.spec.works|]);
    MoreIds(u, s, id);
  }

  lemma StartSpeculationOk(u: Setup, s: Session, id: string, now: int)
    requires Inv(u, s) && Unused(s, id)
    ensures Inv(u, StartSpeculation(u, s, id, now))
    ensures StartSpeculation(u, s, id, now).input == s.input
  {
    hide Inv, StartWork;
    SpecCounters(u, s, s.input.turn);
    var d := if s.spec.attemptTurn != s.input.turn then s.(spec := s.spec.(attemptTurn := s.input.turn, attempts := 0))
             else s;
    if !d.spec.busy { StartWorkOk(u, d, id, now); StartWorkInput(d, id, now); }
  }

  lemma StartWorkInput(s: Session, id: string, now: int)
    ensures StartWork(s, id, now).input == s.input
  {}

  // The detector is launched once per silence, for the audio as it then is.
  lemma LaunchOk(u: Setup, s: Session, id: string, now: int)
    requires Inv(u, s) && Unused(s, id) && s.input.end.Some?
    ensures var d := StartSpeculation(u, s.(input := s.input.(attempted := true, state := Waiting)), id, now);
            d.input.end.Some? && Inv(u, Note(d, DetectorLaunched(d.input.epoch, d.input.end.value, d.input.turn)))
  {
    InputShape(u, s);
    var i := s.input.(attempted := true, state := Waiting);
    hide Inv, StartSpeculation;
    MidTurnOk(u, s, i);
    StartSpeculationOk(u, s.(input := i), id, now);
    var d := StartSpeculation(u, s.(input := i), id, now);
    PlainNote(u, d, DetectorLaunched(d.input.epoch, d.input.end.value, d.input.turn));
  }

  lemma CheckEndpointOk(u: Setup, s: Session, free: bool, id: string, now: int)
    requires Inv(u, s) && Unused(s, id)
    ensures Inv(u, CheckEndpoint(u, s, free, id, now))
  {
    hide Inv, StartSpeculation, CommitTurn, Note;
    if s.input.end.Some? {
      CommitTurnOk(u, s);
      LaunchOk(u, s, id, now);
    }
  }

  lemma PollOk(u: Setup, s: Session, free: bool, idle: bool, id: string, now: int)
    requires Inv(u, s) && Unused(s, id)
    ensures Inv(u, Poll(u, s, free, idle, id, now))
  {
    CheckPauseOk(u, s, idle, now);
    var d := CheckPause(u, s, idle, now);
    assert !s.closed;
    hide Inv, CheckPause, CheckEndpoint, ConfirmPause;
    CheckEndpointOk(u, d, free, id, now);
  }

  lemma WaitingOk(u: Setup, s: Session)
    requires Inv(u, s) && s.input.end.Some?
    ensures Inv(u, s.(input := s.input.(state := Waiting)))
  {
    hide Inv;
    InputShape(u, s);
    MidTurnOk(u, s, s.input.(state := Waiting));
  }

  // A result is only used for the silence it was launched for.
  lemma DetectorResultOk(u: Setup, s: Session, epoch: nat, result: Detection)
    requires Inv(u, s)
    ensures Inv(u, DetectorResult(u, s, epoch, result))
  {
    hide Inv, PauseChanged, InvalidateSpeculation, CommitTurn;
    if epoch == s.input.epoch && s.input.end.Some? {
      PauseChangedOk(u, s);
      match result
      case DetectorFailed => InvalidateSpeculationOk(u, s, Invalidated);
      case Complete => CommitTurnOk(u, PauseChanged(u, s));
      case Continuation =>
        InvalidateSpeculationOk(u, PauseChanged(u, s), Invalidated);
        WaitingOk(u, InvalidateSpeculation(PauseChanged(u, s), Invalidated));
    }
  }

  lemma ClassifierResultOk(u: Setup, s: Session, revision: nat, id: string, result: Classification, now: int)
    requires Inv(u, s)
    ensures Inv(u, ClassifierResult(u, s, revision, id, result, now))
  {
    hide Inv, ConfirmPause, RecoverPause;
    ConfirmPauseOk(u, s);
    RecoverPauseOk(u, s);
  }

  lemma SemanticOk(u: Setup, s: Session, generation: string, turn: string, id: string)
    requires Inv(u, s)
    ensures Inv(u, Semantic(u, s, generation, turn, id))
  {
    hide Inv, PauseChanged;
    PauseChangedOk(u, s);
  }

  // --- playback --------------------------------------------------------------

  // Books that moved on within the generation.
  lemma BooksStepOk(u: Setup, s: Session, b: P.Books)
    requires Inv(u, s) && P.BooksOk(u.conversation, b)
    requires b.gen == s.books.gen && b.live == s.books.live && IssuedOk(b.items, b.gen, s.ids, s.spent)
    requires b.timeline.Some? ==> s.books.timeline.Some? && b.timeline.value.paused == s.books.timeline.value.paused
    ensures Inv(u, s.(books := b))
  {
    hide P.BooksOk, InputOk, AudioOk, CommitsOk, ResponseOk, IssuedOk, TurnsOk, TurnLogOk, SpecOk, PromotedOk;
  }

  lemma UpdateIssued(items: seq<C.Item>, k: nat, q: C.Item, gen: string, ids: set<string>, spent: set<string>)
    requires IssuedOk(items, gen, ids, spent) && k < |items| && P.SameIdentity(items[k], q)
    ensures IssuedOk(items[k := q], gen, ids, spent)
  {}

  lemma AppendIssued(c: C.Config, items: seq<C.Item>, id: string, text: C.Text, sent: bool, gen: string,
      ids: set<string>, spent: set<string>)
    requires items != [] && IssuedOk(items, gen, ids, spent)
    ensures IssuedOk(C.Append(c, items, id, text, sent).0, gen, ids, spent)
  {
    hide IssuedOk, C.Trim;
    if C.PendingAt(items, id) {
      var k := C.FindAssistant(items, id, 0);
      var q := C.WithText(c, items[k], text, sent).0;
      UpdateIssued(items, k, q, gen, ids, spent);
      TrimIssued(c, items[k := q], q.turn, gen, ids, spent);
    }
  }

  lemma AddChunkIssued(c: C.Config, items: seq<C.Item>, id: string, sequence: int, text: C.Text, start: int, end: int,
                       gen: string, ids: set<string>, spent: set<string>)
    requires items != [] && IssuedOk(items, gen, ids, spent)
    ensures IssuedOk(C.AddChunk(c, items, id, sequence, text, start, end).0, gen, ids, spent)
  {
    hide IssuedOk, C.Trim;
    if C.PendingAt(items, id) {
      var k := C.FindAssistant(items, id, 0);
      var q := C.WithChunk(c, items[k], sequence, text, start, end).0;
      UpdateIssued(items, k, q, gen, ids, spent);
      TrimIssued(c, items[k := q], q.turn, gen, ids, spent);
    }
  }

  lemma SyncIssued(b: P.Books, gen: string, ids: set<string>, spent: set<string>)
    requires IssuedOk(b.items, gen, ids, spent)
    ensures IssuedOk(P.Sync(b).items, gen, ids, spent)
  {
    P.SyncIdentity(b);
    hide IssuedOk;
    SameIssued(b.items, P.Sync(b).items, gen, ids, spent);
  }

  lemma DoneIssued(items: seq<C.Item>, id: string, audio: bool, gen: string, ids: set<string>, spent: set<string>)
    requires IssuedOk(items, gen, ids, spent)
    ensures IssuedOk(C.Done(items, id, audio), gen, ids, spent)
  {
    hide IssuedOk;
    if C.PendingAt(items, id) {
      var k := C.FindAssistant(items, id, 0);
      UpdateIssued(items, k, C.Marked(items[k], audio), gen, ids, spent);
    }
  }

  // What the transport and the client may do to the books of a generation.
  datatype BookEvent =
    | TextEvent(id: string, text: C.Text, sent: bool)
    | TextDoneEvent(id: string)
    | RegisterEvent(id: string, sequence: int, text: C.Text, rate: int, channels: int, frames: int)
    | RequireEvent
    | FlowEvent(id: string, rate: int)
    | ReserveEvent(requested: int)
    | SentEvent(id: string, frames: int)
    | CreditEvent(id: string, credit: F.Credit)
    | PositionEvent(id: string, frames: int)

  function Keep(u: Setup, b: P.Books, e: BookEvent): P.Books
    requires b.items != []
  {
    match e
    case TextEvent(id, text, sent) => P.AppendText(u.conversation, b, id, text, sent).0
    case TextDoneEvent(id) => P.TextDone(b, id)
    case RegisterEvent(id, sequence, text, rate, channels, frames) =>
      P.RegisterSpeech(u.conversation, b, id, sequence, text, rate, channels, frames).0
    case RequireEvent => P.RequireCredit(b).0
    case FlowEvent(id, rate) => P.OpenFlow(b, id, rate).0
    case ReserveEvent(requested) => P.Reserve(b, requested)
    case SentEvent(id, frames) => P.RecordSent(b, id, frames)
    case CreditEvent(id, credit) => P.UpdateCredit(b, id, credit).0
    case PositionEvent(id, frames) => P.RecordPosition(b, id, frames).0
  }

  function Unsent(left: map<string, int>, id: string): int { if id in left then left[id] else 0 }

  // A registered chunk is handed to its generation's writer, which records it
  // packet by packet.
  function Owed(u: Setup, b: P.Books, left: map<string, int>, e: BookEvent): map<string, int>
    requires b.items != []
  {
    match e
    case RegisterEvent(id, sequence, text, rate, channels, frames) =>
      if P.RegisterSpeech(u.conversation, b, id, sequence, text, rate, channels, frames).1 != P.Done then left
      else left[id := Unsent(left, id) + frames]
    case SentEvent(id, frames) => if id in left then left[id := left[id] - Max(frames, 0)] else left
    case _ => left
  }

  // Granted frames count until they are recorded. A new window has granted nothing.
  function Granted(b: P.Books, granted: int, e: BookEvent): int {
    match e
    case FlowEvent(_, _) => if b.flow.None? then 0 else granted
    case ReserveEvent(requested) =>
      if b.flow.None? then granted else granted + P.Reserve(b, requested).flow.value.reserved - b.flow.value.reserved
    case SentEvent(id, frames) => if P.Active(b, id) && b.timeline.Some? then granted - Max(frames, 0) else granted
    case _ => granted
  }

  function KeepBooks(u: Setup, s: Session, e: BookEvent): Session
    requires s.books.items != []
  {
    s.(books := Keep(u, s.books, e), left := Owed(u, s.books, s.left, e), granted := Granted(s.books, s.granted, e))
  }

  // A writer records what it was handed, whatever became of its generation, and the
  // writer of the current one only what its window has granted.
  predicate Writes(s: Session, e: BookEvent) {
    e.SentEvent? ==>
      && Max(e.frames, 0) <= Unsent(s.left, e.id)
      && (P.Active(s.books, e.id) && s.books.timeline.Some? ==> s.books.flow.Some? && Max(e.frames, 0) <= s.granted)
  }

  // No more is sent than was generated.
  predicate Honest(b: P.Books, e: BookEvent) {
    e.SentEvent? && P.Active(b, e.id) && b.timeline.Some? ==>
      b.timeline.value.sent + Max(e.frames, 0) <= b.timeline.value.generated
  }

  lemma KeepOk(u: Setup, b: P.Books, e: BookEvent)
    requires P.BooksOk(u.conversation, b) && Honest(b, e)
    ensures b.items != []
    ensures P.BooksOk(u.conversation, Keep(u, b, e)) && P.Onward(b, Keep(u, b, e))
  {
    assert b.items != [];
    hide P.BooksOk, P.AppendText, P.TextDone, P.RegisterSpeech, P.RequireCredit, P.OpenFlow, P.Reserve, P.RecordSent,
         P.UpdateCredit, P.RecordPosition, P.Onward;
    var c := u.conversation;
    match e
    case TextEvent(id, text, sent) => P.AppendTextOk(c, b, id, text, sent);
    case TextDoneEvent(id) => P.TextDoneOk(c, b, id);
    case RegisterEvent(id, sequence, text, rate, channels, frames) =>
      P.RegisterSpeechOk(c, b, id, sequence, text, rate, channels, frames);
    case RequireEvent => P.RequireCreditOk(c, b);
    case FlowEvent(id, rate) => P.OpenFlowOk(c, b, id, rate);
    case ReserveEvent(requested) => P.ReserveOk(c, b, requested);
    case SentEvent(id, frames) => P.RecordSentOk(c, b, id, frames);
    case CreditEvent(id, credit) => P.UpdateCreditOk(c, b, id, credit);
    case PositionEvent(id, frames) => P.RecordPositionOk(c, b, id, frames);
  }

  lemma RecordSourceShape(b: P.Books, frames: int, gen: string, ids: set<string>, spent: set<string>)
    requires IssuedOk(b.items, gen, ids, spent)
    ensures var d := P.RecordSource(b, frames).0;
            && d.gen == b.gen && d.live == b.live && IssuedOk(d.items, gen, ids, spent)
            && (d.timeline.Some? <==> b.timeline.Some?)
            && (d.timeline.Some? ==> d.timeline.value.paused == b.timeline.value.paused)
  {
    hide IssuedOk, P.Sync;
    if frames >= 0 && b.timeline.Some? {
      var t := b.timeline.value;
      var m := b.(flow := if b.flow.Some? then Some(F.Acknowledged(b.flow.value, frames)) else None,
                  timeline := Some(P.PlayedTo(t, Min(frames, t.sent))));
      SyncIssued(m, gen, ids, spent);
      SyncKeeps(m);
    }
  }

  lemma SyncKeeps(b: P.Books)
    ensures P.Sync(b) == b.(items := P.Sync(b).items)
  {}

  // No event of the books changes who is playing or whether it is paused.
  lemma KeepShape(u: Setup, b: P.Books, e: BookEvent, ids: set<string>, spent: set<string>)
    requires b.items != [] && IssuedOk(b.items, b.gen, ids, spent)
    ensures var d := Keep(u, b, e);
            && d.gen == b.gen && d.live == b.live && IssuedOk(d.items, d.gen, ids, spent)
            && (d.timeline.Some? <==> b.timeline.Some?)
            && (d.timeline.Some? ==> d.timeline.value.paused == b.timeline.value.paused)
  {
    hide IssuedOk, P.Sync, C.Append, C.AddChunk, C.Done, P.RecordSource;
    match e
    case TextEvent(id, text, sent) => AppendIssued(u.conversation, b.items, id, text, sent, b.gen, ids, spent);
    case TextDoneEvent(id) => DoneIssued(b.items, id, false, b.gen, ids, spent);
    case RegisterEvent(id, sequence, text, rate, channels, frames) =>
      if b.timeline.Some? {
        var t := b.timeline.value;
        AddChunkIssued(u.conversation, b.items, id, sequence, text, t.generated, t.generated + frames, b.gen, ids,
                       spent);
      }
    case RequireEvent =>
    case FlowEvent(id, rate) =>
    case ReserveEvent(requested) =>
    case SentEvent(id, frames) => SentShape(b, id, frames, ids, spent);
    case CreditEvent(id, credit) =>
      if b.flow.Some? {
        var f := F.Updated(b.flow.value, credit);
        RecordSourceShape(b.(flow := Some(f)), f.played, b.gen, ids, spent);
      }
    case PositionEvent(id, frames) => RecordSourceShape(b, frames, b.gen, ids, spent);
  }

  lemma SentShape(b: P.Books, id: string, frames: int, ids: set<string>, spent: set<string>)
    requires IssuedOk(b.items, b.gen, ids, spent)
    ensures var d := P.RecordSent(b, id, frames);
            && d.gen == b.gen && d.live == b.live && IssuedOk(d.items, d.gen, ids, spent)
            && (d.timeline.Some? <==> b.timeline.Some?)
            && (d.timeline.Some? ==> d.timeline.value.paused == b.timeline.value.paused)
  {
    hide IssuedOk, P.Sync;
    if P.Active(b, id) && b.timeline.Some? {
      var t := b.timeline.value;
      var v := t.(sent := t.sent + Max(frames, 0));
      var m := b.(timeline := Some(if b.flow.Some? then P.PlayedTo(v, Min(b.flow.value.played, v.sent)) else v));
      SyncIssued(m, b.gen, ids, spent);
      SyncKeeps(m);
    }
  }

  lemma BookEventOk(u: Setup, s: Session, e: BookEvent)
    requires Inv(u, s) && Honest(s.books, e)
    ensures s.books.items != [] && Inv(u, KeepBooks(u, s, e))
  {
    assert P.BooksOk(u.conversation, s.books) && IssuedOk(s.books.items, s.books.gen, s.ids, s.spent);
    hide Inv, P.BooksOk, IssuedOk, Keep;
    KeepOk(u, s.books, e);
    KeepShape(u, s.books, e, s.ids, s.spent);
    BooksStepOk(u, s, Keep(u, s.books, e));
    SameLeft(u, s.(books := Keep(u, s.books, e)), Owed(u, s.books, s.left, e), Granted(s.books, s.granted, e));
  }

  lemma SameLeft(u: Setup, s: Session, left: map<string, int>, granted: int)
    requires Inv(u, s)
    ensures Inv(u, s.(left := left, granted := granted))
  {}

  lemma MarkDoneOk(u: Setup, s: Session, id: string)
    requires Inv(u, s)
    ensures Inv(u, MarkDone(s, id))
    // The answer being marked is always there.
    ensures P.Active(s.books, id) ==> C.FindAssistant(s.books.items, id, 0) < |s.books.items|
  {
    assert P.BooksOk(u.conversation, s.books) && IssuedOk(s.books.items, s.books.gen, s.ids, s.spent);
    if P.Active(s.books, id) {
      assert C.IsAssistant(s.books.items[|s.books.items| - 1], s.books.gen);
      hide Inv, P.BooksOk, IssuedOk, P.Sync, C.Done;
      P.AudioDoneOk(u.conversation, s.books);
      var m := s.books.(items := C.Done(s.books.items, s.books.gen, true));
      DoneIssued(s.books.items, s.books.gen, true, s.books.gen, s.ids, s.spent);
      SyncIssued(m, s.books.gen, s.ids, s.spent);
      SyncKeeps(m);
      BooksStepOk(u, s, P.AudioDone(s.books));
      DoneFlagOk(u, s.(books := P.AudioDone(s.books)));
    }
  }

  lemma DoneFlagOk(u: Setup, s: Session)
    requires Inv(u, s)
    ensures Inv(u, s.(generation := s.generation.(done := true)))
  {
    hide P.BooksOk, InputOk, AudioOk, CommitsOk, PauseOk, ResponseOk, IssuedOk, TurnsOk, TurnLogOk, SpecOk, PromotedOk;
  }

  lemma PlaybackPausedOk(u: Setup, s: Session, generation: string, id: string, frames: int)
    requires Inv(u, s)
    ensures Inv(u, PlaybackPaused(s, generation, id, frames))
  {
    if PlaybackPaused(s, generation, id, frames) != s {
      assert P.BooksOk(u.conversation, s.books) && IssuedOk(s.books.items, s.books.gen, s.ids, s.spent);
      GuardsUnreachable(u, s);
      assert s.books.timeline.value.paused;
      hide Inv, P.BooksOk, IssuedOk, P.RecordSource, P.PauseTimeline;
      PositionBooks(u, s, frames);
      var b := P.RecordSource(s.books, frames).0;
      RecordSourceShape(s.books, frames, s.books.gen, s.ids, s.spent);
      P.PauseTimelineOk(u.conversation, b, true);
      TimelineSame(b, true);
      BooksStepOk(u, s, P.PauseTimeline(b, true));
    }
  }

  lemma PositionBooks(u: Setup, s: Session, frames: int)
    requires P.BooksOk(u.conversation, s.books) && s.books.gen != ""
    ensures P.BooksOk(u.conversation, P.RecordSource(s.books, frames).0)
  {
    hide P.RecordSource, B.StoreOk;
    P.RecordSourceOk(u.conversation, s.books, frames);
  }

  lemma PlaybackFailedOk(u: Setup, s: Session, generation: string, id: string)
    requires Inv(u, s)
    ensures Inv(u, PlaybackFailed(s, generation, id))
  {
    hide Inv, ConfirmPause, CancelGenerationLocked;
    ConfirmPauseOk(u, s);
    CancelGenerationOk(u, s);
  }

  // --- generations -----------------------------------------------------------

  lemma CancelEventOk(u: Setup, s: Session, id: string)
    requires Inv(u, s)
    ensures Inv(u, CancelGeneration(s, id))
  {
    hide Inv, CancelGenerationLocked, InvalidateSpeculation;
    InvalidateSpeculationOk(u, s, Cancelled);
    CancelGenerationOk(u, InvalidateSpeculation(s, Cancelled));
  }

  lemma NewTextTurnOk(u: Setup, s: Session, turn: string)
    requires Inv(u, s) && Unused(s, turn)
    ensures Inv(u, NewTextTurn(s, turn))
  {
    if !s.input.active {
      IdleQuiet(u, s);
      hide Inv, InvalidateSpeculation, NewResponse;
      InvalidateSpeculationOk(u, s, Invalidated);
      var d := InvalidateSpeculation(s, Invalidated);
      IdOk(u, d, turn);
      var e := d.(ids := d.ids + {turn});
      UnspentNew(u, d, turn);
      NewResponseOk(u, e, turn);
      TextShape(s, turn, d);
    }
  }

  lemma TextShape(s: Session, turn: string, d: Session)
    requires !s.input.active && d == InvalidateSpeculation(s, Invalidated)
    ensures NewTextTurn(s, turn) == NewResponse(d.(ids := d.ids + {turn}), turn)
  {
    hide InvalidateSpeculation;
  }

  lemma UnspentNew(u: Setup, s: Session, id: string)
    requires Inv(u, s) && Unused(s, id)
    ensures id !in s.spent
  {}

  // Issuing an identifier changes nothing else.
  lemma IdOk(u: Setup, s: Session, id: string)
    requires Inv(u, s) && id != ""
    ensures Inv(u, s.(ids := s.ids + {id}))
  {
    hide P.BooksOk, InputOk, AudioOk, CommitsOk, PauseOk, ResponseOk, IssuedOk, TurnsOk, TurnLogOk, SpecOk, PromotedOk;
    MoreIds(u, s, id);
    SpecMoreIds(u, s.spec, s.ids, s.ids + {id}, s.books.gen, s.generation.request);
  }

  lemma FreshAnswerable(u: Setup, s: Session, turn: string)
    requires Inv(u, s) && turn !in s.spent
    ensures B.Answerable(P.FinalizeCurrent(s.books).items, turn)
  {
    P.FinalizeSameIds(u.conversation, s.books, "");
    var a, b := s.books.items, P.FinalizeCurrent(s.books).items;
    forall i | 1 <= i < |b| ensures b[i].turn != turn { assert P.SameIdentity(a[i], b[i]); }
  }

  lemma StartEventOk(u: Setup, s: Session, turn: string, textOnly: bool, item: string, gen: string)
    requires Inv(u, s) && Unused(s, turn) && Unused(s, item) && Unused(s, gen) && turn != item && turn != gen
    ensures s.books.items != [] && Inv(u, StartGeneration(u, s, turn, textOnly, item, gen))
  {
    hide TurnLogOk, ResponseOk, B.Shape, PauseOk;
    assert s.books.items != [];
    assert Mid(s.input.state) ==> s.input.turn in s.ids;
    assert s.response.ctx != 0 ==> s.response.turn in s.ids;
    hide Inv, InvalidateSpeculation, CancelResponse, StartGenerationLocked, P.FinalizeCurrent, B.Answerable;
    InvalidateSpeculationOk(u, s, Invalidated);
    var c := InvalidateSpeculation(s, Invalidated);
    CancelResponseOk(u, c);
    var d := CancelResponse(c);
    UnspentNew(u, d, turn);
    FreshAnswerable(u, d, turn);
    IdOk(u, d, turn);
    StartGenerationOk(u, d.(ids := d.ids + {turn}), turn, textOnly, item, gen);
  }
}
