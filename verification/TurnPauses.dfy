// Pauses and endpoints over single steps: each pause is decided at most once and
// ends only by a decision or with its generation, its deadline never moves, no
// turn commits while it is open, and a detector speaks only for its own silence.
module TurnPauses {
  import opened Options
  import C = ConversationModel
  import P = Playback
  import opened TurnModel
  import opened TurnInvariant
  import opened TurnSteps
  import opened TurnEvents
  import opened TurnWorks
  import opened TurnRuns

  datatype Kind = Suspicion | Decision | Commit

  predicate Is(e: Entry, kind: Kind) {
    match kind
    case Suspicion => e.Suspected?
    case Decision => e.PauseConfirmed? || e.PauseRecovered?
    case Commit => e.TurnCommitted?
  }

  function Count(log: seq<Entry>, kind: Kind): nat {
    if log == [] then 0 else Count(log[..|log| - 1], kind) + if Is(log[|log| - 1], kind) then 1 else 0
  }

  // The detector launches of a log, in order.
  function Launched(log: seq<Entry>): seq<Entry> {
    if log == [] then []
    else Launched(log[..|log| - 1]) + if log[|log| - 1].DetectorLaunched? then [log[|log| - 1]] else []
  }

  lemma CountNote(log: seq<Entry>, e: Entry)
    ensures forall kind :: Count(log + [e], kind) == Count(log, kind) + if Is(e, kind) then 1 else 0
    ensures Launched(log + [e]) == if e.DetectorLaunched? then Launched(log) + [e] else Launched(log)
  {
    assert (log + [e])[..|log|] == log;
  }

  // What of a session these steps are about.
  datatype Summary = Summary(suspicions: nat, decisions: nat, commits: nat, launches: seq<Entry>, pause: Pause,
                             gen: string, epoch: nat, end: Option<int>, attempted: bool, turn: string)

  function Sum(s: Session): Summary {
    Summary(Count(s.log, Suspicion), Count(s.log, Decision), Count(s.log, Commit), Launched(s.log), s.pause,
            s.books.gen, s.input.epoch, s.input.end, s.input.attempted, s.input.turn)
  }

  function Unpaused(p: Pause): Pause { p.(revision := p.revision + 1, state := NoPause) }

  function Restarted(a: Summary): Summary { a.(epoch := a.epoch + 1, end := None, attempted := false) }

  // --- helpers ---------------------------------------------------------------

  lemma NoteSum(s: Session, e: Entry)
    ensures s.log <= Note(s, e).log
    ensures Sum(Note(s, e)) == Sum(s).(suspicions := Sum(s).suspicions + (if Is(e, Suspicion) then 1 else 0),
                                       decisions := Sum(s).decisions + (if Is(e, Decision) then 1 else 0),
                                       commits := Sum(s).commits + (if Is(e, Commit) then 1 else 0),
                                       launches := if e.DetectorLaunched? then Sum(s).launches + [e]
                                                   else Sum(s).launches)
  {
    CountNote(s.log, e);
  }

  lemma CancelResponseSum(s: Session)
    ensures s.log <= CancelResponse(s).log && Sum(CancelResponse(s)) == Sum(s)
  {
    CountNote(s.log, ResponseDropped(s.response.ctx));
  }

  lemma NewResponseSum(s: Session, turn: string)
    ensures s.log <= NewResponse(s, turn).log && Sum(NewResponse(s, turn)) == Sum(s)
    ensures NewResponse(s, turn).input == s.input
  {
    CancelResponseSum(s);
  }

  lemma InvalidateSum(s: Session, state: WorkState)
    ensures InvalidateSpeculation(s, state).log == s.log && Sum(InvalidateSpeculation(s, state)) == Sum(s)
    ensures InvalidateSpeculation(s, state).input == s.input && InvalidateSpeculation(s, state).books == s.books
  {}

  lemma MarkSum(s: Session)
    ensures MarkCommitted(s).log == s.log && Sum(MarkCommitted(s)) == Sum(s) && MarkCommitted(s).input == s.input
  {}

  lemma CancelGenerationSum(s: Session)
    ensures s.log <= CancelGenerationLocked(s).log
    ensures Sum(CancelGenerationLocked(s)) == Sum(s).(gen := "", pause := Unpaused(s.pause))
    ensures CancelGenerationLocked(s).input == s.input
  {
    hide P.FinalizeCurrent;
    var d := InvalidatePause(s.(books := P.EndGeneration(s.books)));
    CancelResponseSum(d);
    hide CancelResponse;
    assert CancelGenerationLocked(s) == CancelResponse(d);
    assert CancelResponse(d).input == d.input by { CancelKeepsInput(d); }
  }

  // A commit counts once and restarts the endpoint, or finds nothing to commit.
  lemma CommitSum(s: Session)
    ensures s.log <= CommitTurn(s).log
    ensures Pending(s) ==> Sum(CommitTurn(s)) == Sum(s)
    ensures !Pending(s) ==>
      var n := if s.input.buffer == [] then 0 else 1;
      Sum(CommitTurn(s)) == Restarted(Sum(s)).(commits := Sum(s).commits + n,
                                               turn := if s.input.buffer == [] then s.input.turn else "")
  {
    MarkSum(s);
    hide MarkCommitted, MarkedKey, NewResponse;
    if !Pending(s) && s.input.buffer != [] { PublishSum(s); }
  }

  lemma PublishSum(s: Session)
    requires !Pending(s) && s.input.buffer != []
    ensures s.log <= CommitTurn(s).log
    ensures Sum(CommitTurn(s)) == Restarted(Sum(s)).(commits := Sum(s).commits + 1, turn := "")
  {
    MarkSum(s);
    hide MarkCommitted, MarkedKey, NewResponse;
    var d := ResetEndpoint(MarkCommitted(s));
    var r := NewResponse(d, d.input.turn);
    NewResponseSum(d, d.input.turn);
    NoteSum(r, TurnCommitted(r.input.turn, r.response.ctx, r.lo, |r.stream|, r.listen, r.spoke, r.input.buffer,
                             MarkedKey(s)));
  }

  // --- one step of a pause ---------------------------------------------------

  predicate Open(a: Summary) { a.pause.state == Paused }

  ghost predicate SamePause(p: Pause, q: Pause) {
    q.generation == p.generation && q.turn == p.turn && q.started == p.started
  }

  // From one state to the next: a pause stays as it was opened, with no decision
  // and no commit; or it ends, by one decision or because its generation did; no
  // decision is made without one; a commit leaves none open.
  ghost predicate PauseStep(a: Summary, b: Summary) {
    && a.decisions <= b.decisions && a.commits <= b.commits <= a.commits + 1 && a.suspicions <= b.suspicions
    && (Open(a) && Open(b) ==>
          && b.decisions == a.decisions && b.commits == a.commits && b.suspicions == a.suspicions
          && SamePause(a.pause, b.pause))
    && (Open(a) && !Open(b) ==>
          && b.decisions <= a.decisions + 1 && b.suspicions == a.suspicions
          && (b.decisions == a.decisions ==> b.gen != a.gen))
    && (!Open(a) ==> b.decisions == a.decisions && b.suspicions == a.suspicions + (if Open(b) then 1 else 0))
    && (b.commits > a.commits ==> !Open(b))
  }

  // The endpoint keeps its silence, starts over, begins a silence not yet
  // attempted, or is attempted once.
  ghost predicate EndpointStep(a: Summary, b: Summary) {
    || (b.launches == a.launches && b.epoch > a.epoch)
    || (b.launches == a.launches && b.epoch == a.epoch && b.end == a.end && b.attempted == a.attempted
        && b.turn == a.turn)
    || (b.launches == a.launches && b.epoch == a.epoch && a.end.None? && !b.attempted && b.turn == a.turn)
    || (&& a.end.Some? && b.launches == a.launches + [DetectorLaunched(a.epoch, a.end.value, a.turn)]
        && b.epoch == a.epoch && b.end == a.end && !a.attempted && b.attempted && b.turn == a.turn)
  }

  ghost predicate Steps(s: Session, d: Session) {
    s.log <= d.log && PauseStep(Sum(s), Sum(d)) && EndpointStep(Sum(s), Sum(d))
  }

  // Neither a pause nor its generation is touched.
  ghost predicate Quiet(a: Summary, b: Summary) {
    && b.decisions == a.decisions && b.commits == a.commits && b.suspicions == a.suspicions && b.gen == a.gen
    && (Open(b) <==> Open(a)) && SamePause(a.pause, b.pause)
  }

  // The endpoint is left alone, or started over.
  ghost predicate Calm(a: Summary, b: Summary) {
    && b.launches == a.launches
    && (b.epoch > a.epoch || (b.epoch == a.epoch && b.end == a.end && b.attempted == a.attempted && b.turn == a.turn))
  }

  // A decision was taken: the pause is over, its generation with it.
  ghost predicate Concluded(a: Summary, b: Summary) {
    && !Open(b) && b.decisions == a.decisions + 1 && b.suspicions == a.suspicions
    && a.commits <= b.commits <= a.commits + 1
    && Calm(a, b) && (b.epoch > a.epoch ==> b.end.None?) && (b.epoch == a.epoch ==> b.commits == a.commits)
  }

  lemma ConcludedStep(a: Summary, b: Summary)
    requires Open(a) && Concluded(a, b)
    ensures PauseStep(a, b) && EndpointStep(a, b) && Calm(a, b)
  {}

  lemma QuietThen(a: Summary, g: Summary, b: Summary)
    requires Quiet(a, g) && Calm(a, g) && PauseStep(g, b)
    ensures PauseStep(a, b)
    ensures Calm(g, b) ==> EndpointStep(a, b)
  {}

  lemma ThenQuiet(a: Summary, g: Summary, b: Summary)
    requires PauseStep(a, g) && Quiet(g, b) && Calm(a, g) && Calm(g, b)
    ensures PauseStep(a, b) && EndpointStep(a, b)
  {}

  lemma QuietStep(a: Summary, b: Summary)
    requires Quiet(a, b) && Calm(a, b)
    ensures PauseStep(a, b) && EndpointStep(a, b)
  {}

  lemma SameSteps(s: Session, d: Session)
    requires s.log <= d.log && Sum(d) == Sum(s)
    ensures Steps(s, d)
  {}

  lemma PauseSum(s: Session, p: Pause)
    ensures Sum(s.(pause := p)) == Sum(s).(pause := p)
  {}

  // The state in which a confirmed pause may release a deferred commit.
  function Decided(s: Session): Session {
    var d := CancelGenerationLocked(s);
    Note(d.(pause := d.pause.(state := Confirmed)), PauseConfirmed(d.pause.id))
  }

  lemma ConfirmShape(s: Session)
    requires Pending(s) && s.pause.generation == s.books.gen
    ensures ConfirmPause(s) == if Decided(s).input.ready then CommitTurn(Decided(s)) else Decided(s)
  {
    hide CancelGenerationLocked, CommitTurn;
  }

  lemma DecidedSum(s: Session)
    requires Pending(s)
    ensures s.log <= Decided(s).log && Decided(s).input == s.input && !Pending(Decided(s))
    ensures Sum(Decided(s)) == Sum(s).(gen := "",
                                       pause := s.pause.(revision := s.pause.revision + 1, state := Confirmed),
                                       decisions := Sum(s).decisions + 1)
  {
    hide CancelGenerationLocked, Count, Launched;
    CancelGenerationSum(s);
    var d := CancelGenerationLocked(s);
    var c := d.(pause := d.pause.(state := Confirmed));
    PauseSum(d, c.pause);
    NoteSum(c, PauseConfirmed(d.pause.id));
  }

  lemma ConcludedFrom(a: Summary, p: Pause, n: nat, turn: string)
    requires p.state == Confirmed && n <= 1
    ensures var g := a.(gen := "", pause := p, decisions := a.decisions + 1);
            Concluded(a, g) && Concluded(a, Restarted(g).(commits := g.commits + n, turn := turn))
  {}

  lemma PrefixTwice<T>(a: seq<T>, b: seq<T>, c: seq<T>)
    requires a <= b && b <= c
    ensures a <= c
  {}

  lemma CommitGen(s: Session)
    ensures CommitTurn(s).books == s.books && Sum(CommitTurn(s)).gen == s.books.gen && Sum(s).gen == s.books.gen
  {
    hide MarkedKey, Count, Launched;
  }

  lemma ConfirmSum(u: Setup, s: Session)
    requires Inv(u, s) && Pending(s)
    ensures s.log <= ConfirmPause(s).log && Concluded(Sum(s), Sum(ConfirmPause(s)))
    ensures Sum(ConfirmPause(s)).gen == "" && (!s.input.ready ==> ConfirmPause(s).input == s.input)
  {
    hide Inv, ConfirmPause, Decided, CommitTurn, Sum, Concluded;
    GuardsUnreachable(u, s);
    ConfirmShape(s);
    var d := Decided(s);
    DecidedSum(s);
    CommitSum(d);
    var p := s.pause.(revision := s.pause.revision + 1, state := Confirmed);
    ConcludedFrom(Sum(s), p, if d.input.buffer == [] then 0 else 1, if d.input.buffer == [] then d.input.turn else "");
    CommitGen(d);
    PrefixTwice(s.log, d.log, CommitTurn(d).log);
  }

  lemma ConfirmSteps(u: Setup, s: Session)
    requires Inv(u, s)
    ensures Steps(s, ConfirmPause(s)) && Calm(Sum(s), Sum(ConfirmPause(s)))
  {
    hide Inv, ConfirmPause, Sum, PauseStep, EndpointStep, Concluded;
    if Pending(s) {
      assert Open(Sum(s)) by { OpenIs(s); }
      ConfirmSum(u, s);
      ConcludedStep(Sum(s), Sum(ConfirmPause(s)));
    } else {
      NotPendingSame(s);
      SameSteps(s, s);
    }
  }

  lemma OpenIs(s: Session)
    ensures Open(Sum(s)) <==> Pending(s)
  {}

  lemma NotPendingSame(s: Session)
    requires !Pending(s)
    ensures ConfirmPause(s) == s && RecoverPause(s) == s
  {}

  lemma GenNamed(u: Setup, s: Session)
    requires Inv(u, s)
    ensures Pending(s) ==> s.books.gen != "" && s.pause.generation == s.books.gen
  {}

  lemma RecoverSum(u: Setup, s: Session)
    requires Inv(u, s) && Pending(s)
    ensures s.log <= RecoverPause(s).log && Concluded(Sum(s), Sum(RecoverPause(s)))
    ensures Sum(RecoverPause(s)).epoch > Sum(s).epoch
  {
    hide Inv, InvalidateSpeculation, P.PauseTimeline, RecoverPause;
    GuardsUnreachable(u, s);
    RecoverShape(s);
    NoteSum(Unnoted(s), PauseRecovered(s.pause.id));
    InvalidateSum(Released(s), Invalidated);
    TimelineSame(s.books, false);
  }

  lemma OpenSum(u: Setup, s: Session, generation: string, id: string, opening: bool, now: int)
    requires !Pending(s)
    ensures Steps(s, OpenPause(u, s, generation, id, opening, now))
    ensures Calm(Sum(s), Sum(OpenPause(u, s, generation, id, opening, now)))
  {
    hide P.PauseTimeline, Count, Launched;
    var d := Opened(u, s, generation, id, opening, now);
    TimelineSame(d.books, true);
    NoteSum(d.(books := P.PauseTimeline(d.books, true)), Suspected(id));
  }

  lemma BeginShape(u: Setup, s: Session, generation: string, id: string, opening: bool, now: int)
    ensures var d := BeginPause(u, s, generation, id, opening, now);
            || d == s
            || (Pending(s) && s.pause.generation == generation
                && d == ConfirmPause(s.(pause := s.pause.(id := id, resumed := true))))
            || (generation == s.books.gen && !(Pending(s) && s.pause.generation == generation)
                && d == OpenPause(u, s, generation, id, opening, now))
  {
    hide OpenPause, ConfirmPause;
  }

  lemma RenamedStep(s: Session, p: Pause, b: Summary)
    requires Pending(s) && p == s.pause.(id := p.id, resumed := p.resumed) && Concluded(Sum(s).(pause := p), b)
    ensures PauseStep(Sum(s), b) && EndpointStep(Sum(s), b) && Calm(Sum(s), b)
  {}

  lemma BeginPauseSteps(u: Setup, s: Session, generation: string, id: string, opening: bool, now: int)
    requires Inv(u, s)
    ensures Steps(s, BeginPause(u, s, generation, id, opening, now))
    ensures Calm(Sum(s), Sum(BeginPause(u, s, generation, id, opening, now)))
  {
    hide Inv, BeginPause, OpenPause, ConfirmPause, Sum, PauseStep, EndpointStep;
    GenNamed(u, s);
    SameSteps(s, s);
    OpenIs(s);
    BeginShape(u, s, generation, id, opening, now);
    if Pending(s) {
      var p := s.pause.(id := id, resumed := true);
      PauseFieldsOk(u, s, p);
      PauseSum(s, p);
      ConfirmSum(u, s.(pause := p));
      RenamedStep(s, p, Sum(ConfirmPause(s.(pause := p))));
    } else {
      OpenSum(u, s, generation, id, opening, now);
    }
  }

  // --- input events ----------------------------------------------------------

  lemma RelistenSum(s: Session, i: Input)
    requires i.epoch == s.input.epoch + 1 && i.end.None? && !i.attempted
    ensures Sum(DropAudio(s).(input := i)) == Restarted(Sum(s)).(turn := i.turn)
    ensures DropAudio(s).(input := i).log == s.log
  {}

  lemma StartInputSteps(u: Setup, s: Session)
    requires Inv(u, s)
    ensures Steps(s, StartInput(s))
  {
    hide Inv, InvalidateSpeculation, Count, Launched;
    InvalidateSum(s, Invalidated);
  }

  lemma SpokenSum(s: Session, turn: string)
    ensures s.log <= Spoken(s, turn).log
    ensures Sum(Spoken(s, turn)) ==
            Restarted(Sum(s)).(turn := if s.input.state == Listening then turn else s.input.turn)
  {
    hide InvalidateSpeculation, Count, Launched;
    CancelResponseSum(s);
    CancelKeepsInput(s);
    var d := CancelResponse(s);
    var e := if d.input.state == Listening
             then d.(input := d.input.(turn := turn, hasSpeech := false), ids := d.ids + {turn}, spoke := |d.stream|)
             else d;
    hide CancelResponse;
    InvalidateSum(e, Invalidated);
  }

  lemma SpeechStartSteps(u: Setup, s: Session, generation: string, id: string, turn: string, now: int)
    requires Inv(u, s) && (s.input.state == Listening ==> Unused(s, turn))
    ensures Steps(s, SpeechStart(u, s, generation, id, turn, now))
  {
    hide Inv, SpeechStart, Spoken, BeginPause, ConfirmPause, Sum, PauseStep, EndpointStep;
    SameSteps(s, s);
    if Hearing(s) && s.input.state != Speaking {
      SpokenOk(u, s, turn);
      SpokenSum(s, turn);
      SpeechShape(u, s, generation, id, turn, now);
      var g := Spoken(s, turn);
      assert Quiet(Sum(s), Sum(g)) && Calm(Sum(s), Sum(g));
      OpenIs(g);
      if Pending(g) {
        var p := Resumed(g, generation, id);
        PauseFieldsOk(u, g, p);
        PauseSum(g, p);
        ConfirmSum(u, g.(pause := p));
        RenamedStep(g, p, Sum(ConfirmPause(g.(pause := p))));
        QuietThen(Sum(s), Sum(g), Sum(ConfirmPause(g.(pause := p))));
      } else {
        BeginPauseSteps(u, g, generation, id, s.input.state == Listening, now);
        QuietThen(Sum(s), Sum(g), Sum(BeginPause(u, g, generation, id, s.input.state == Listening, now)));
        QuietStep(Sum(s), Sum(g));
      }
    } else {
      assert SpeechStart(u, s, generation, id, turn, now) == s by { SpeechKeeps(u, s, generation, id, turn, now); }
    }
  }

  lemma PauseChangedSum(u: Setup, s: Session)
    ensures PauseChanged(u, s).log == s.log && PauseChanged(u, s).input == s.input
    ensures Sum(PauseChanged(u, s)) == Sum(s).(pause := PauseChanged(u, s).pause)
    ensures SamePause(s.pause, PauseChanged(u, s).pause) && PauseChanged(u, s).pause.state == s.pause.state
  {}

  lemma RecoverSteps(u: Setup, s: Session)
    requires Inv(u, s)
    ensures Steps(s, RecoverPause(s)) && Calm(Sum(s), Sum(RecoverPause(s)))
  {
    hide Inv, RecoverPause, Sum, PauseStep, EndpointStep, Concluded;
    OpenIs(s);
    if Pending(s) {
      RecoverSum(u, s);
      ConcludedStep(Sum(s), Sum(RecoverPause(s)));
    } else {
      NotPendingSame(s);
      SameSteps(s, s);
    }
  }

  lemma MisfireShape(u: Setup, s: Session, valid: bool, now: int)
    requires Hearing(s) && s.input.state == Speaking && !valid && !s.input.hasSpeech && !Pending(s)
    ensures EndSpeech(u, s, valid, now)
            == DropAudio(InvalidateSpeculation(s, Invalidated)).(input := Relisten(s.input, "", s.input.hasSpeech))
  {
    hide InvalidateSpeculation;
    InvalidateKeeps(s, Invalidated);
  }

  // A silence begins, not yet attempted.
  lemma SilenceSteps(u: Setup, s: Session, valid: bool, now: int)
    requires Hearing(s) && s.input.state == Speaking && s.input.end.None? && (valid || s.input.hasSpeech)
    ensures Steps(s, EndSpeech(u, s, valid, now))
  {
    hide Count, Launched;
  }

  lemma EndSpeechSteps(u: Setup, s: Session, valid: bool, now: int)
    requires Inv(u, s)
    ensures Steps(s, EndSpeech(u, s, valid, now))
  {
    hide Inv, RecoverPause, InvalidateSpeculation, PauseChanged, Sum, PauseStep, EndpointStep;
    InputShape(u, s);
    SameSteps(s, s);
    if Hearing(s) && s.input.state == Speaking {
      if !valid && !s.input.hasSpeech {
        RecoverSteps(u, s);
        InvalidateSum(s, Invalidated);
        RelistenSum(InvalidateSpeculation(s, Invalidated), Relisten(s.input, "", s.input.hasSpeech));
        RestartedQuiet(Sum(s), "");
        QuietStep(Sum(s), Restarted(Sum(s)).(turn := ""));
        if !Pending(s) { MisfireShape(u, s, valid, now); }
      } else {
        SilenceSteps(u, s, valid, now);
      }
    }
  }

  lemma RestartedQuiet(a: Summary, turn: string)
    ensures Quiet(a, Restarted(a).(turn := turn)) && Calm(a, Restarted(a).(turn := turn))
  {}

  lemma DroppedSum(s: Session)
    ensures var d := DropAudio(s);
            var e := d.(input := d.input.(active := false, state := Idle));
            e.log == s.log && Sum(e) == Sum(s)
  {}

  lemma CancelInputSteps(u: Setup, s: Session, stop: bool)
    requires Inv(u, s)
    ensures Steps(s, CancelInput(s, stop))
  {
    hide Inv, RecoverPause, InvalidateSpeculation, CancelResponse, Sum, PauseStep, EndpointStep;
    if s.input.realtime {
      var c := InvalidateSpeculation(s, Cancelled);
      InvalidateSpeculationOk(u, s, Cancelled);
      InvalidateSum(s, Cancelled);
      RecoverSteps(u, c);
      var d := RecoverPause(c);
      var e := InvalidateSpeculation(d, Invalidated);
      InvalidateSum(d, Invalidated);
      CancelResponseSum(e);
      CancelKeepsInput(e);
      var i := d.input.(epoch := d.input.epoch + 1, end := None, attempted := false, ready := false, buffer := [],
                        turn := "", active := d.input.active && !stop,
                        state := if stop || !d.input.active then Idle else Listening);
      CancelShape(s, stop, d, i);
      hide CancelInput;
      RelistenSum(CancelResponse(e), i);
      RestartedQuiet(Sum(d), "");
      ThenQuiet(Sum(s), Sum(d), Restarted(Sum(d)).(turn := ""));
    } else {
      CancelResponseSum(s);
      CancelKeepsInput(s);
      DroppedSum(CancelResponse(s));
      SameSteps(s, CancelInput(s, stop));
    }
  }

  lemma InputLimitSteps(u: Setup, s: Session)
    requires Inv(u, s)
    ensures var d := DropAudio(InvalidateInput(ConfirmPause(s)));
            Steps(s, d.(input := d.input.(active := false, state := Idle)))
  {
    hide Inv, ConfirmPause, InvalidateSpeculation, Sum, PauseStep, EndpointStep;
    ConfirmSteps(u, s);
    var c := ConfirmPause(s);
    InvalidateSum(c, Invalidated);
    var i := c.input.(epoch := c.input.epoch + 1, end := None, attempted := false, ready := false, buffer := [],
                      active := false, state := Idle);
    RelistenSum(InvalidateSpeculation(c, Invalidated), i);
    RestartedQuiet(Sum(c), i.turn);
    ThenQuiet(Sum(s), Sum(c), Restarted(Sum(c)).(turn := i.turn));
  }

  lemma AppendAudioSteps(u: Setup, s: Session, data: Bytes)
    requires Inv(u, s)
    ensures Steps(s, AppendAudio(s, u, data))
  {
    hide Inv, ConfirmPause, InvalidateInput, Count, Launched;
    SameSteps(s, s);
    InputLimitSteps(u, s);
  }

  // --- the endpoint loop -----------------------------------------------------

  lemma StartSpeculationSum(u: Setup, s: Session, id: string, now: int)
    ensures StartSpeculation(u, s, id, now).log == s.log && Sum(StartSpeculation(u, s, id, now)) == Sum(s)
    ensures StartSpeculation(u, s, id, now).input == s.input
  {}

  // From a state whose pause is settled for now, the endpoint is committed,
  // attempted or left.
  lemma CheckEndpointSum(u: Setup, s: Session, free: bool, id: string, now: int)
    ensures s.log <= CheckEndpoint(u, s, free, id, now).log && Checked(Sum(s), Sum(CheckEndpoint(u, s, free, id, now)))
  {
    hide StartSpeculation, CommitTurn, Count, Launched;
    if s.input.end.Some? {
      CommitSum(s);
      var w := s.(input := s.input.(attempted := true, state := Waiting));
      StartSpeculationSum(u, w, id, now);
      var d := StartSpeculation(u, w, id, now);
      NoteSum(d, DetectorLaunched(d.input.epoch, d.input.end.value, d.input.turn));
    }
  }

  lemma CheckPauseShape(u: Setup, s: Session, idle: bool, now: int)
    ensures var d := CheckPause(u, s, idle, now);
            || d == s || (Pending(s) && (d == ConfirmPause(s)
                                         || d == s.(pause := s.pause.(attempted := s.pause.revision))))
  {
    hide ConfirmPause;
  }

  lemma PollSteps(u: Setup, s: Session, free: bool, idle: bool, id: string, now: int)
    requires Inv(u, s)
    ensures Steps(s, Poll(u, s, free, idle, id, now))
  {
    assert !s.closed;
    hide Inv, ConfirmPause, CheckPause, CheckEndpoint, Sum, PauseStep, EndpointStep, Concluded;
    var d := CheckPause(u, s, idle, now);
    CheckPauseShape(u, s, idle, now);
    CheckEndpointSum(u, d, free, id, now);
    OpenIs(s);
    if d == s {
      UnpausedPoll(s, CheckEndpoint(u, d, free, id, now));
      SameSteps(s, s);
    } else if d == ConfirmPause(s) {
      ConfirmSum(u, s);
      ConcludedStep(Sum(s), Sum(d));
      EndIs(d);
      if d.input.end.Some? { ConcludedPoll(Sum(s), Sum(d), Sum(CheckEndpoint(u, d, free, id, now))); }
    } else {
      PauseSum(s, d.pause);
      AttemptedPoll(s, d, CheckEndpoint(u, d, free, id, now));
      QuietStep(Sum(s), Sum(d));
    }
  }

  lemma EndIs(s: Session)
    ensures Sum(s).end == s.input.end
  {}

  // What the endpoint check may do to a summary.
  ghost predicate Checked(a: Summary, b: Summary) {
    && EndpointStep(a, b) && b.pause == a.pause && b.gen == a.gen
    && b.decisions == a.decisions && b.suspicions == a.suspicions && a.commits <= b.commits <= a.commits + 1
    && (Open(a) ==> b.commits == a.commits)
  }

  lemma UnpausedPoll(s: Session, d: Session)
    requires s.log <= d.log && Checked(Sum(s), Sum(d))
    ensures Steps(s, d)
  {}

  lemma ConcludedPoll(a: Summary, g: Summary, b: Summary)
    requires Open(a) && Concluded(a, g) && g.end.Some? && Checked(g, b)
    ensures PauseStep(a, b) && EndpointStep(a, b)
  {}

  lemma AttemptedPoll(s: Session, g: Session, d: Session)
    requires Pending(s) && Sum(g) == Sum(s).(pause := s.pause.(attempted := s.pause.revision))
    requires s.log == g.log <= d.log && Checked(Sum(g), Sum(d))
    ensures Steps(s, d) && Quiet(Sum(s), Sum(g)) && Calm(Sum(s), Sum(g))
  {}

  // --- results ---------------------------------------------------------------

  lemma DetectorSteps(u: Setup, s: Session, epoch: nat, result: Detection)
    requires Inv(u, s)
    ensures Steps(s, DetectorResult(u, s, epoch, result))
  {
    hide Inv, PauseChanged, InvalidateSpeculation, CommitTurn, Sum, PauseStep, EndpointStep;
    SameSteps(s, s);
    if epoch == s.input.epoch && s.input.end.Some? && !s.closed {
      var c := PauseChanged(u, s);
      PauseChangedSum(u, s);
      assert Quiet(Sum(s), Sum(c)) && Calm(Sum(s), Sum(c)) by { ChangedQuiet(u, s); }
      QuietStep(Sum(s), Sum(c));
      match result
      case DetectorFailed =>
        InvalidateSum(s, Invalidated);
        SameSteps(s, InvalidateSpeculation(s, Invalidated));
      case Complete =>
        CommitSum(c);
        CommitStep(c);
        QuietThen(Sum(s), Sum(c), Sum(CommitTurn(c)));
      case Continuation =>
        InvalidateSum(c, Invalidated);
        WaitingSum(InvalidateSpeculation(c, Invalidated));
    }
  }

  lemma ChangedQuiet(u: Setup, s: Session)
    ensures Quiet(Sum(s), Sum(PauseChanged(u, s))) && Calm(Sum(s), Sum(PauseChanged(u, s)))
  {}

  lemma WaitingSum(s: Session)
    ensures Sum(s.(input := s.input.(state := Waiting))) == Sum(s)
  {}

  lemma CommitStep(s: Session)
    ensures PauseStep(Sum(s), Sum(CommitTurn(s))) && Calm(Sum(s), Sum(CommitTurn(s)))
  {
    hide CommitTurn, Count, Launched;
    CommitSum(s);
  }

  lemma ClassifierSteps(u: Setup, s: Session, revision: nat, id: string, result: Classification, now: int)
    requires Inv(u, s)
    ensures Steps(s, ClassifierResult(u, s, revision, id, result, now))
  {
    hide Inv, ConfirmPause, RecoverPause, Sum, PauseStep, EndpointStep;
    SameSteps(s, s);
    ConfirmSteps(u, s);
    RecoverSteps(u, s);
  }

  lemma SemanticSteps(u: Setup, s: Session, generation: string, turn: string, id: string)
    requires Inv(u, s)
    ensures Steps(s, Semantic(u, s, generation, turn, id))
  {
    hide Inv, PauseChanged, Sum, PauseStep, EndpointStep;
    SameSteps(s, s);
    PauseChangedSum(u, s);
    ChangedQuiet(u, s);
    QuietStep(Sum(s), Sum(PauseChanged(u, s)));
  }

  // --- output events ---------------------------------------------------------

  lemma BooksSum(s: Session, b: P.Books)
    requires b.gen == s.books.gen
    ensures Steps(s, s.(books := b))
  {}

  lemma PlaybackPausedSteps(u: Setup, s: Session, generation: string, id: string, frames: int)
    requires Inv(u, s)
    ensures Steps(s, PlaybackPaused(s, generation, id, frames))
  {
    assert IssuedOk(s.books.items, s.books.gen, s.ids, s.spent);
    hide Inv, P.RecordSource, P.PauseTimeline, Sum, PauseStep, EndpointStep;
    SameSteps(s, s);
    RecordSourceShape(s.books, frames, s.books.gen, s.ids, s.spent);
    TimelineSame(P.RecordSource(s.books, frames).0, true);
    BooksSum(s, P.PauseTimeline(P.RecordSource(s.books, frames).0, true));
  }

  // Ending the generation ends its pause without a decision.
  lemma CancelledStep(a: Summary, b: Summary)
    requires a.gen != "" || !Open(a)
    requires b == a.(gen := "", pause := Unpaused(a.pause))
    ensures PauseStep(a, b) && EndpointStep(a, b)
  {}

  lemma PausedGen(u: Setup, s: Session)
    requires Inv(u, s)
    ensures Sum(s).gen != "" || !Open(Sum(s))
  {
    GenNamed(u, s);
  }

  lemma CancelGenerationSteps(u: Setup, s: Session)
    requires Inv(u, s)
    ensures Steps(s, CancelGenerationLocked(s))
  {
    hide Inv, CancelGenerationLocked, PauseStep, EndpointStep, Count, Launched;
    PausedGen(u, s);
    CancelGenerationSum(s);
    CancelledStep(Sum(s), Sum(CancelGenerationLocked(s)));
  }

  lemma PlaybackFailedSteps(u: Setup, s: Session, generation: string, id: string)
    requires Inv(u, s)
    ensures Steps(s, PlaybackFailed(s, generation, id))
  {
    hide Inv, ConfirmPause, CancelGenerationLocked, Sum, PauseStep, EndpointStep;
    SameSteps(s, s);
    ConfirmSteps(u, s);
    CancelGenerationSteps(u, s);
  }

  lemma CancelEventSteps(u: Setup, s: Session, id: string)
    requires Inv(u, s)
    ensures Steps(s, CancelGeneration(s, id))
  {
    hide Inv, InvalidateSpeculation, CancelGenerationLocked, Sum, PauseStep, EndpointStep;
    SameSteps(s, s);
    InvalidateSpeculationOk(u, s, Cancelled);
    InvalidateSum(s, Cancelled);
    CancelGenerationSteps(u, InvalidateSpeculation(s, Cancelled));
  }

  // A replacement generation is a new one, so the pause of the old one is over.
  lemma ReplacedStep(a: Summary, b: Summary, gen: string)
    requires gen != a.gen && b == a.(gen := gen, pause := Unpaused(a.pause))
    ensures PauseStep(a, b) && EndpointStep(a, b)
  {}

  lemma StartLockedSum(u: Setup, s: Session, turn: string, textOnly: bool, item: string, gen: string)
    requires s.books.items != [] && !s.closed
    ensures var d := StartGenerationLocked(u, s, turn, textOnly, item, gen);
            d.log == s.log && Sum(d) == Sum(s).(gen := gen, pause := Unpaused(s.pause))
  {}

  lemma StartEventSteps(u: Setup, s: Session, turn: string, textOnly: bool, item: string, gen: string)
    requires Inv(u, s) && gen !in s.ids && s.books.items != [] && gen != ""
    ensures Steps(s, StartGeneration(u, s, turn, textOnly, item, gen))
  {
    assert gen != s.books.gen && !s.closed;
    hide Inv, InvalidateSpeculation, CancelResponse, StartGenerationLocked, PauseStep, EndpointStep, Count, Launched;
    var c := InvalidateSpeculation(s, Invalidated);
    InvalidateSum(s, Invalidated);
    InvalidateKeeps(s, Invalidated);
    CancelResponseSum(c);
    CancelKeepsInput(c);
    var d := CancelResponse(c);
    assert !d.closed by { CancelResponseOpen(c); }
    StartLockedSum(u, d.(ids := d.ids + {turn}), turn, textOnly, item, gen);
    ReplacedStep(Sum(s), Sum(StartGeneration(u, s, turn, textOnly, item, gen)), gen);
  }

  lemma CancelResponseOpen(s: Session)
    ensures CancelResponse(s).closed == s.closed
  {}

  lemma MarkDoneSteps(u: Setup, s: Session, id: string)
    ensures Steps(s, MarkDone(s, id))
  {
    hide Count, C.Done, C.Progress;
  }

  lemma TextTurnSteps(u: Setup, s: Session, turn: string)
    ensures Steps(s, NewTextTurn(s, turn))
  {
    hide InvalidateSpeculation, NewResponse, PauseStep, EndpointStep, Count, Launched;
    SameSteps(s, s);
    if !s.input.active {
      var c := InvalidateSpeculation(s, Invalidated);
      InvalidateSum(s, Invalidated);
      NewResponseSum(c, turn);
      SameSteps(s, NewTextTurn(s, turn));
    }
  }

  // An accepted response replaces the generation.
  lemma ResponseSteps(u: Setup, s: Session, ctx: nat, text: C.Text, textOnly: bool, user: string, item: string,
      gen: string)
    requires Inv(u, s) && Distinct3(s, user, item, gen) && s.books.items != []
    ensures Steps(s, BeginResponse(u, s, ctx, text, textOnly, user, item, gen))
  {
    assert gen != s.books.gen;
    SameSteps(s, s);
    if Usable(s, ctx) {
      if u.conversation.blank(text) {
        assert Sum(s.(response := s.response.(used := true))) == Sum(s);
      } else if C.Context(u.conversation, s.books.items, text).Some? {
        AnswerBooks(u, s, text, textOnly, user, item, gen);
        AnswerShape(u, s, ctx, text, textOnly, user, item, gen);
        hide Inv, BeginResponse, P.FinalizeCurrent, C.CommitUser, PauseStep, EndpointStep, Count, Launched;
        AnsweredSum(u, s, text, textOnly, user, item, gen);
        ReplacedStep(Sum(s), Sum(Answered(u, s, text, textOnly, user, item, gen)), gen);
      }
    }
  }

  lemma AnsweredSum(u: Setup, s: Session, text: C.Text, textOnly: bool, user: string, item: string, gen: string)
    requires P.FinalizeCurrent(s.books).items != []
    ensures var d := Answered(u, s, text, textOnly, user, item, gen);
            s.log <= d.log && Sum(d) == Sum(s).(gen := gen, pause := Unpaused(s.pause))
  {
    hide P.FinalizeCurrent, C.CommitUser, C.BeginAssistant, C.Window;
    CountNote(s.log, GenerationBegun(s.response.ctx, s.response.turn, gen));
  }

  lemma BooksEventSteps(u: Setup, s: Session, e: BookEvent)
    requires Inv(u, s) && s.books.items != []
    ensures Steps(s, KeepBooks(u, s, e))
  {
    assert IssuedOk(s.books.items, s.books.gen, s.ids, s.spent);
    hide Inv, Keep, Sum, PauseStep, EndpointStep;
    KeepShape(u, s.books, e, s.ids, s.spent);
    BooksSum(s, Keep(u, s.books, e));
  }

  // Worker events touch only the speculation.
  lemma WorkSum(s: Session, d: Session)
    requires d == s.(spec := d.spec)
    ensures Steps(s, d)
  {}

  lemma PromoteSteps(u: Setup, s: Session, ctx: nat, key: Key, user: string, item: string, gen: string, now: int)
    requires Inv(u, s) && Distinct3(s, user, item, gen) && s.books.items != []
    ensures Steps(s, Promote(u, s, ctx, key, user, item, gen, now))
  {
    hide Inv, BeginResponse, Sum, PauseStep, EndpointStep, ValidWork;
    SameSteps(s, s);
    if s.spec.current.Some? && s.spec.current.value < |s.spec.works| {
      var k := s.spec.current.value;
      var w := s.spec.works[k];
      WorkSum(s, SetWork(s, k, Ended(w, Cancelled)));
      if w.result.Some? {
        ResponseSteps(u, s, ctx, w.result.value, false, user, item, gen);
        AdoptSteps(u, s, k, ctx, user, item, gen);
      }
    }
  }

  lemma AdoptSteps(u: Setup, s: Session, k: nat, ctx: nat, user: string, item: string, gen: string)
    requires s.books.items != [] && k < |s.spec.works| && s.spec.works[k].result.Some?
    requires Steps(s, BeginResponse(u, s, ctx, s.spec.works[k].result.value, false, user, item, gen))
    ensures Steps(s, Adopt(u, s, k, ctx, user, item, gen))
  {
    hide BeginResponse, Begins, PauseStep, EndpointStep, Count, Launched;
    var w := s.spec.works[k];
    if w.result.value == [] {
      var q := SetWork(s.(response := s.response.(used := true)), k, w.(state := Promoted, generation := ""));
      NoteSum(q, WorkPromoted(k, ctx, ""));
      SameSteps(s, Note(q, WorkPromoted(k, ctx, "")));
    } else {
      var d := BeginResponse(u, s, ctx, w.result.value, false, user, item, gen);
      var x := Adopted(w, gen, d.generation.request);
      NoteSum(SetWork(d.(spec := s.spec), k, x), WorkPromoted(k, ctx, gen));
    }
  }

  lemma NextInputSteps(u: Setup, s: Session, e: Event)
    requires Inv(u, s) && Enabled(s, e) && s.books.items != [] && OfInput(e)
    ensures Steps(s, InputNext(u, s, e))
  {
    hide Inv, StartInput, SpeechStart, EndSpeech, CancelInput, AppendAudio, Steps;
    match e
    case StartInputEvent => StartInputSteps(u, s);
    case SpeechStartEvent(generation, id, turn, now) => SpeechStartSteps(u, s, generation, id, turn, now);
    case EndSpeechEvent(valid, now) => EndSpeechSteps(u, s, valid, now);
    case CancelInputEvent(stop) => CancelInputSteps(u, s, stop);
    case AudioEvent(data) => AppendAudioSteps(u, s, data);
  }

  lemma NextEndpointSteps(u: Setup, s: Session, e: Event)
    requires Inv(u, s) && Enabled(s, e) && s.books.items != [] && OfEndpoint(e)
    ensures Steps(s, EndpointNext(u, s, e))
  {
    hide Inv, Poll, DetectorResult, ClassifierResult, Steps;
    match e
    case PollEvent(free, idle, id, now) => PollSteps(u, s, free, idle, id, now);
    case DetectorEvent(epoch, detection) => DetectorSteps(u, s, epoch, detection);
    case ClassifierEvent(revision, id, decision, now) => ClassifierSteps(u, s, revision, id, decision, now);
  }

  lemma NextPlaybackSteps(u: Setup, s: Session, e: Event)
    requires Inv(u, s) && Enabled(s, e) && s.books.items != [] && OfPlayback(e)
    ensures Steps(s, PlaybackNext(u, s, e))
  {
    hide Inv, BeginPause, Semantic, PlaybackPaused, PlaybackFailed, KeepBooks, Steps;
    match e
    case BeginPauseEvent(generation, id, now) => BeginPauseSteps(u, s, generation, id, false, now);
    case SemanticEvent(generation, turn, id) => SemanticSteps(u, s, generation, turn, id);
    case PausedEvent(generation, id, frames) => PlaybackPausedSteps(u, s, generation, id, frames);
    case FailedEvent(generation, id) => PlaybackFailedSteps(u, s, generation, id);
    case BooksEvent(event) => BooksEventSteps(u, s, event);
  }

  lemma NextAnswerSteps(u: Setup, s: Session, e: Event)
    requires Inv(u, s) && Enabled(s, e) && s.books.items != [] && OfAnswer(e)
    ensures Steps(s, AnswerNext(u, s, e))
  {
    hide Inv, StartGeneration, CancelGeneration, MarkDone, NewTextTurn, BeginResponse, Steps;
    match e
    case StartGenerationEvent(turn, textOnly, item, gen) => StartEventSteps(u, s, turn, textOnly, item, gen);
    case CancelEvent(id) => CancelEventSteps(u, s, id);
    case MarkDoneEvent(id) => MarkDoneSteps(u, s, id);
    case TextTurnEvent(turn) => TextTurnSteps(u, s, turn);
    case ResponseEvent(ctx, text, textOnly, user, item, gen) =>
      ResponseSteps(u, s, ctx, text, textOnly, user, item, gen);
  }

  lemma NextWorkerSteps(u: Setup, s: Session, e: Event)
    requires Inv(u, s) && Enabled(s, e) && s.books.items != [] && OfWorker(e)
    ensures Steps(s, WorkerNext(u, s, e))
  {
    assert WorkerNext(u, s, e) == s.(spec := WorkerNext(u, s, e).spec) by { WorkerOnly(u, s, e); }
    hide *;
    WorkSum(s, WorkerNext(u, s, e));
  }

  lemma NextAdoptionSteps(u: Setup, s: Session, e: Event)
    requires Inv(u, s) && Enabled(s, e) && s.books.items != [] && OfAdoption(e) && !e.CloseEvent?
    ensures Steps(s, AdoptionNext(u, s, e))
  {
    hide Inv;
    if e.PromoteEvent? {
      hide Promote, Steps;
      PromoteSteps(u, s, e.ctx, e.key, e.user, e.item, e.gen, e.now);
    } else {
      assert AdoptionNext(u, s, e) == s.(spec := AdoptionNext(u, s, e).spec) by { AdoptionOnly(u, s, e); }
      hide *;
      WorkSum(s, AdoptionNext(u, s, e));
    }
  }

  // The theorem: what any event of a live session may do to a pause and to the endpoint.
  lemma NextSteps(u: Setup, s: Session, e: Event)
    requires Inv(u, s) && Enabled(s, e) && !e.CloseEvent?
    ensures s.books.items != [] && Steps(s, Next(u, s, e))
  {
    assert s.books.items != [];
    hide Inv, Enabled, Steps, InputNext, EndpointNext, PlaybackNext, AnswerNext, WorkerNext, AdoptionNext;
    if OfInput(e) {
      NextInputSteps(u, s, e);
    } else if OfEndpoint(e) {
      NextEndpointSteps(u, s, e);
    } else if OfPlayback(e) {
      NextPlaybackSteps(u, s, e);
    } else if OfAnswer(e) {
      NextAnswerSteps(u, s, e);
    } else if OfAdoption(e) {
      NextAdoptionSteps(u, s, e);
    } else {
      NextWorkerSteps(u, s, e);
    }
  }

  // --- over whole runs -------------------------------------------------------

  // Launches are one per epoch, and a launch of the current epoch is for the
  // silence that is still being waited out.
  ghost predicate DetectOk(a: Summary) {
    && (forall i | 0 <= i < |a.launches| ::
          && a.launches[i].DetectorLaunched? && a.launches[i].epoch <= a.epoch
          && (a.launches[i].epoch == a.epoch ==>
                a.attempted && a.end == Some(a.launches[i].end) && a.turn == a.launches[i].turn))
    && (forall i, j | 0 <= i < j < |a.launches| :: a.launches[i].epoch != a.launches[j].epoch)
  }

  ghost predicate Ledger(a: Summary) {
    DetectOk(a) && a.decisions + (if Open(a) then 1 else 0) <= a.suspicions
  }

  lemma LedgerKept(a: Summary, b: Summary)
    requires Ledger(a) && PauseStep(a, b) && EndpointStep(a, b)
    ensures Ledger(b)
  {}

  // Closing decides nothing and attempts nothing.
  lemma CloseSum(s: Session)
    ensures Sum(Close(s)) == Sum(s)
  {}

  lemma {:induction false} ExecuteLedger(u: Setup, s: Session, events: seq<Event>)
    requires Sound(u, s) && Ledger(Sum(s))
    ensures Ledger(Sum(Execute(u, s, events)))
    decreases |events|
  {
    hide Next;
    if events != [] {
      hide LiveInv, Inv, Enabled, Next, Sum, PauseStep, EndpointStep, Ledger, Sound, Close;
      var d := Try(u, s, events[0]);
      if Enabled(s, events[0]) {
        Live(u, s, events[0]);
        NextOk(u, s, events[0]);
        if events[0].CloseEvent? {
          CloseSum(s);
        } else {
          NextSteps(u, s, events[0]);
          LedgerKept(Sum(s), Sum(d));
        }
      }
      ExecuteLedger(u, d, events[1..]);
    }
  }

  lemma Live(u: Setup, s: Session, e: Event)
    requires Sound(u, s) && Enabled(s, e)
    ensures LiveInv(u, s) && Inv(u, s)
  {
    OpenRuns(u, s);
  }

  lemma ReachLedger(u: Setup, item: string, events: seq<Event>)
    requires C.ValidConfig(u.conversation) && item != ""
    ensures Ledger(Sum(Reach(u, item, events)))
  {
    hide Inv, HeldOk, Execute;
    InitialOk(u, item);
    ExecuteLedger(u, Initial(u, item), events);
  }

  // Over any run: never more decisions than pauses opened, one still missing
  // while one is open; one detector launch per endpoint epoch.
  lemma DecidedAtMostOnce(u: Setup, item: string, events: seq<Event>)
    requires C.ValidConfig(u.conversation) && item != ""
    ensures var s := Reach(u, item, events);
            && Count(s.log, Decision) + (if Pending(s) then 1 else 0) <= Count(s.log, Suspicion)
            && forall i, j | 0 <= i < j < |Launched(s.log)| ::
                 Launched(s.log)[i].DetectorLaunched? && Launched(s.log)[j].DetectorLaunched?
                 && Launched(s.log)[i].epoch != Launched(s.log)[j].epoch
  {
    hide Inv, Reach;
    ReachLedger(u, item, events);
  }

  // A detector result that is honoured concerns the silence it was launched for.
  lemma DetectorOwnSilence(u: Setup, item: string, events: seq<Event>, epoch: nat, result: Detection, i: nat)
    requires C.ValidConfig(u.conversation) && item != ""
    requires var s := Reach(u, item, events);
             && i < |Launched(s.log)| && Launched(s.log)[i].DetectorLaunched? && Launched(s.log)[i].epoch == epoch
             && DetectorResult(u, s, epoch, result) != s
    ensures var s := Reach(u, item, events);
            s.input.end == Some(Launched(s.log)[i].end) && s.input.turn == Launched(s.log)[i].turn && s.input.attempted
  {
    hide Inv, PauseChanged, InvalidateSpeculation, CommitTurn, Reach;
    var s := Reach(u, item, events);
    assert Ledger(Sum(s)) by { ReachLedger(u, item, events); }
    assert epoch == s.input.epoch;
    assert s.input.epoch == Sum(s).epoch && Sum(s).launches == Launched(s.log);
  }
}
