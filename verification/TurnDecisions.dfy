// What every result and every timer leads to: which pauses are confirmed and which
// released, which turns are committed and when, read off the log and the books.
module TurnDecisions {
  import opened Options
  import C = ConversationModel
  import B = ConversationBounds
  import P = Playback
  import opened TurnModel
  import opened TurnInvariant

  predicate Unpaused(b: P.Books) { b.timeline.Some? ==> !b.timeline.value.paused }

  // A context that was open before is dropped.
  function Dropped(s: Session): seq<Entry> {
    if s.response.cancellable then [ResponseDropped(s.response.ctx)] else []
  }

  // --- committing -------------------------------------------------------------

  predicate Handed(s: Session, e: Entry) { e.TurnCommitted? && e.turn == s.input.turn && e.audio == s.input.buffer }

  // The turn is handed over: its audio is committed in a fresh context, which is
  // live and waits to be answered, and listening starts over.
  ghost predicate Commits(s: Session, d: Session) {
    && d.log != [] && d.log == s.log + Dropped(s) + [d.log[|d.log| - 1]]
    && Handed(s, d.log[|d.log| - 1]) && d.log[|d.log| - 1].ctx == d.response.ctx
    && d.response.ctx == s.contexts + 1 && d.response.live && !d.response.used && d.response.turn == s.input.turn
    && d.input.turn == "" && d.input.buffer == [] && d.input.state == Listening && d.input.end.None? && !d.input.ready
    && d.books == s.books && d.pause == s.pause && d.generation == s.generation
  }

  // There is nothing to hand over: listening starts over.
  ghost predicate StartsOver(s: Session, d: Session) {
    && d.log == s.log && d.response == s.response && d.books == s.books && d.pause == s.pause
    && d.input.buffer == [] && d.input.state == Listening && d.input.end.None? && !d.input.ready
  }

  // The end of a turn: kept for later while a pause is undecided.
  ghost predicate EndsTurn(s: Session, d: Session) {
    if Pending(s) then d == s.(input := s.input.(ready := true))
    else if s.input.buffer == [] then StartsOver(s, d)
    else Commits(s, d)
  }

  lemma CancelResponseIs(s: Session)
    ensures var d := CancelResponse(s);
            && d == s.(response := d.response, log := d.log)
            && d.response == s.response.(live := d.response.live, cancellable := false)
            && d.log == s.log + Dropped(s)
            && !d.response.cancellable && (d.response.live <==> s.response.live && !s.response.cancellable)
  {
    assert s.log + [] == s.log;
  }

  lemma MarkIs(s: Session)
    ensures MarkCommitted(s) == s.(spec := MarkCommitted(s).spec)
  {
    hide ValidWork;
  }

  lemma EndsTurnExact(s: Session)
    requires !s.closed
    ensures EndsTurn(s, CommitTurn(s))
  {
    MarkIs(s);
    var d := ResetEndpoint(MarkCommitted(s));
    CancelResponseIs(d);
    hide MarkCommitted, MarkedKey, CancelResponse;
  }

  // --- deciding a pause -------------------------------------------------------

  // The pause is confirmed: its generation is over, and an end of turn that came
  // meanwhile takes place now.
  ghost predicate Confirms(s: Session, d: Session) {
    && (if s.input.ready && s.input.buffer != []
        then d.log != [] && d.log == s.log + Dropped(s) + [PauseConfirmed(s.pause.id)] + [d.log[|d.log| - 1]]
             && Handed(s, d.log[|d.log| - 1])
        else d.log == s.log + Dropped(s) + [PauseConfirmed(s.pause.id)])
    && d.books.gen == "" && !d.books.live && Unpaused(d.books) && d.pause.state == PauseState.Confirmed
    && (forall i | 0 <= i < |d.books.items| :: d.books.items[i].status != C.Pending)
    && d.books == P.EndGeneration(s.books) && (!s.input.ready ==> d.input == s.input)
  }

  // The pause is released: its generation goes on where it was, and what was heard
  // of the user is forgotten.
  ghost predicate Recovers(s: Session, d: Session) {
    && d.log == s.log + [PauseRecovered(s.pause.id)] && d.pause.state == PauseState.Recovered
    && d.books == s.books.(timeline := d.books.timeline) && d.books.live && d.books.gen == s.pause.generation
    && (s.books.timeline.Some? ==>
          d.books.timeline == Some(s.books.timeline.value.(paused := false)))
    && d.input.turn == "" && d.input.buffer == [] && d.input.state == Listening && d.input.end.None?
    && !d.input.hasSpeech && !d.input.ready && d.response == s.response && d.generation == s.generation
    && d.spec == InvalidateSpeculation(s, Invalidated).spec
  }

  lemma RecoversExact(u: Setup, s: Session)
    requires Inv(u, s) && Pending(s)
    ensures Recovers(s, RecoverPause(s))
  {
    assert PauseOk(s.pause, s.books.gen, s.books.live, s.books.timeline, s.input.state, s.input.turn);
    hide Inv;
    var r := Released(s);
    SpecOnly(s, Invalidated);
    SpecOnly(r, Invalidated);
    hide InvalidateSpeculation;
  }

  lemma SpecOnly(s: Session, state: WorkState)
    ensures InvalidateSpeculation(s, state) == s.(spec := InvalidateSpeculation(s, state).spec)
    ensures forall r: Session | r.spec == s.spec ::
            InvalidateSpeculation(r, state).spec == InvalidateSpeculation(s, state).spec
  {
    hide Ended;
  }

  lemma CancelIs(u: Setup, s: Session)
    requires Inv(u, s)
    ensures var d := CancelGenerationLocked(s);
            && d == s.(books := P.EndGeneration(s.books), pause := d.pause, response := d.response, log := d.log)
            && !d.response.cancellable && d.log == s.log + Dropped(s)
            && d.books.gen == "" && !d.books.live && Unpaused(d.books)
            && (forall i | 0 <= i < |d.books.items| :: d.books.items[i].status != C.Pending)
            && d.pause == s.pause.(revision := s.pause.revision + 1, state := NoPause)
  {
    P.EndGenerationOk(u.conversation, s.books);
    NonePending(u, P.EndGeneration(s.books));
    hide Inv, P.FinalizeCurrent;
    CancelResponseIs(InvalidatePause(s.(books := P.EndGeneration(s.books))));
    hide CancelResponse;
  }

  lemma NonePending(u: Setup, b: P.Books)
    requires P.BooksOk(u.conversation, b) && b.gen == ""
    ensures forall i | 0 <= i < |b.items| :: b.items[i].status != C.Pending
  {
    assert P.Owned(b);
    assert B.OnePending(b.items);
  }

  // A confirmed pause, before an end of turn that came meanwhile.
  function Decided(s: Session): Session {
    var d := CancelGenerationLocked(s);
    Note(d.(pause := d.pause.(state := PauseState.Confirmed)), PauseConfirmed(d.pause.id))
  }

  lemma ConfirmIs(s: Session)
    requires Pending(s) && s.pause.generation == s.books.gen
    ensures ConfirmPause(s) == if Decided(s).input.ready then CommitTurn(Decided(s)) else Decided(s)
  {
    hide CancelGenerationLocked, CommitTurn;
  }

  lemma DecidedIs(u: Setup, s: Session)
    requires Inv(u, s)
    ensures var e := Decided(s);
            && e.log == s.log + Dropped(s) + [PauseConfirmed(s.pause.id)] && e.input == s.input && e.closed == s.closed
            && !e.response.cancellable && e.books == P.EndGeneration(s.books)
            && e.books.gen == "" && !e.books.live && Unpaused(e.books) && e.pause.state == PauseState.Confirmed
            && (forall i | 0 <= i < |e.books.items| :: e.books.items[i].status != C.Pending)
  {
    CancelIs(u, s);
    hide Inv, CancelGenerationLocked;
  }

  lemma ConfirmsExact(u: Setup, s: Session)
    requires Inv(u, s) && Pending(s)
    ensures Confirms(s, ConfirmPause(s))
  {
    assert s.pause.generation == s.books.gen && !s.closed;
    hide Inv;
    DecidedIs(u, s);
    ConfirmIs(s);
    EndsTurnExact(Decided(s));
    hide Decided, CommitTurn, ConfirmPause;
    assert s.log + Dropped(s) + [PauseConfirmed(s.pause.id)] + [] == s.log + Dropped(s) + [PauseConfirmed(s.pause.id)];
  }

  // --- the classifier ---------------------------------------------------------

  // The result is about the pause that is open, as it now stands.
  predicate Asked(s: Session, revision: nat, id: string) {
    Pending(s) && id == s.pause.id && revision == s.pause.revision
  }

  // The user speaks on, or has spoken again since.
  predicate Insists(s: Session) { s.input.state == Speaking || s.pause.resumed }

  // An interruption, or no answer, confirms the pause; a backchannel or a false
  // alarm releases it unless the user speaks on or has spoken again; from the
  // deadline on everything confirms; a result for anything else changes nothing.
  lemma ClassifierDecides(u: Setup, s: Session, revision: nat, id: string, result: Classification, now: int)
    requires Inv(u, s)
    ensures var d := ClassifierResult(u, s, revision, id, result, now);
            if !Asked(s, revision, id) then d == s
            else if now >= s.pause.started + u.decisionWindow then Confirms(s, d)
            else
              match result
              case Ambiguous => d == s
              case Interruption => Confirms(s, d)
              case ClassifierFailed => Confirms(s, d)
              case Backchannel => if Insists(s) then Confirms(s, d) else Recovers(s, d)
              case FalseAlarm => if Insists(s) then Confirms(s, d) else Recovers(s, d)
  {
    hide Confirms, Recovers, ConfirmPause, RecoverPause;
    if Asked(s, revision, id) {
      assert s.pause.generation == s.books.gen && !s.closed;
      ConfirmsExact(u, s);
      RecoversExact(u, s);
    }
    hide Inv;
  }

  // --- the detector -----------------------------------------------------------

  // Work that was not adopted is given up.
  predicate Drops(s: Session, d: Session) {
    && d.spec.current == s.spec.current && |d.spec.works| == |s.spec.works|
    && (s.spec.current.Some? && s.spec.current.value < |s.spec.works|
        && s.spec.works[s.spec.current.value].state != Promoted ==>
          Done(d.spec.works[s.spec.current.value].state))
    && forall k | 0 <= k < |s.spec.works| && (s.spec.current != Some(k) || s.spec.works[k].state == Promoted) ::
         d.spec.works[k] == s.spec.works[k]
  }

  lemma InvalidateDrops(s: Session, state: WorkState)
    requires Done(state)
    ensures Drops(s, InvalidateSpeculation(s, state))
    ensures InvalidateSpeculation(s, state) == s.(spec := InvalidateSpeculation(s, state).spec)
  {
  }

  // New evidence about an open pause: the classifier is asked anew once things have
  // settled, and the deadline stays.
  function Reconsidered(u: Setup, s: Session): Pause {
    if !Pending(s) then s.pause
    else s.pause.(revision := s.pause.revision + 1,
                  notBefore := (match s.input.end case None => 0 case Some(end) => end) + u.settle)
  }

  // The silence the detector was asked about ends the turn if it says so, and does
  // not if it hears the user go on; without an answer the maximal delay decides.
  lemma DetectorDecides(u: Setup, s: Session, epoch: nat, result: Detection)
    requires Inv(u, s)
    ensures var d := DetectorResult(u, s, epoch, result);
            if epoch != s.input.epoch || s.input.end.None? then d == s
            else
              match result
              case Complete => EndsTurn(s.(pause := Reconsidered(u, s)), d)
              case Continuation =>
                && d == s.(pause := Reconsidered(u, s), spec := d.spec, input := s.input.(state := Waiting))
                && Drops(s, d)
              case DetectorFailed => d == s.(spec := d.spec) && Drops(s, d)
  {
    hide P.Core, InvalidateSpeculation, SpecOk, PauseOk;
    assert !s.closed;
    hide Inv;
    EndsTurnExact(PauseChanged(u, s));
    InvalidateDrops(s, Invalidated);
    InvalidateDrops(PauseChanged(u, s), Invalidated);
    hide EndsTurn, CommitTurn, InvalidateSpeculation;
  }

  // --- the input loop ---------------------------------------------------------

  // Something may be guessed ahead: the turn has speech, this silence has no work
  // yet, and no other work, no recent attempt and no open pause stands against it.
  predicate Guesses(u: Setup, s: Session, now: int) {
    && u.speculation && s.input.hasSpeech && s.input.buffer != [] && !s.spec.busy
    && (forall k | 0 <= k < |s.spec.works| && s.spec.current == Some(k) ::
          s.spec.works[k].key.turn != s.input.turn || s.spec.works[k].key.revision != s.input.epoch)
    && (s.spec.lastAttempt.Some? ==> now - s.spec.lastAttempt.value >= u.cooldown)
    && (if s.spec.attemptTurn == s.input.turn then s.spec.attempts else 0) < u.maxAttempts
    && (Pending(s) ==> s.pause.samples >= 12800)
  }

  ghost predicate Speculates(u: Setup, s: Session, d: Session, id: string, now: int) {
    if Guesses(u, s, now) then
      && |d.spec.works| == |s.spec.works| + 1 && d.spec.works[..|s.spec.works|] == s.spec.works
      && (var w := d.spec.works[|s.spec.works|];
          && w.key == Key(id, s.input.turn, s.input.epoch) && w.state == Running && w.live && !w.committed && !w.ready
          && w.phase == AtStt && w.started == now && w.deltas == [] && w.produced == [] && w.delivered == []
          && !w.adopted)
      && d.spec.current == Some(|s.spec.works|) && d.spec.busy && d.spec.lastAttempt == Some(now)
      && d.spec.attemptTurn == s.input.turn
      && d.spec.attempts == 1 + if s.spec.attemptTurn == s.input.turn then s.spec.attempts else 0
    else d.spec.works == s.spec.works && d.spec.current == s.spec.current && d.spec.busy == s.spec.busy
         && d.spec.lastAttempt == s.spec.lastAttempt
  }

  lemma SpeculatesExact(u: Setup, s: Session, id: string, now: int)
    requires !s.closed
    ensures var d := StartSpeculation(u, s, id, now);
            Speculates(u, s, d, id, now) && d == s.(spec := d.spec, ids := d.ids)
  {
  }

  // A silence ends the turn at the maximal delay; from the minimal one on the
  // detector is asked, once, as soon as it is free.
  ghost predicate Waits(u: Setup, s: Session, d: Session, free: bool, id: string, now: int) {
    if s.input.end.None? || s.input.ready then d == s
    else if now >= s.input.end.value + u.maxDelay then EndsTurn(s, d)
    else if s.input.attempted || !free || now < s.input.end.value + u.minDelay then d == s
    else
      && d.log == s.log + [DetectorLaunched(s.input.epoch, s.input.end.value, s.input.turn)]
      && d == s.(input := s.input.(attempted := true, state := Waiting), spec := d.spec, ids := d.ids, log := d.log)
      && Speculates(u, s, d, id, now)
  }

  lemma WaitsExact(u: Setup, s: Session, free: bool, id: string, now: int)
    requires !s.closed
    ensures Waits(u, s, CheckEndpoint(u, s, free, id, now), free, id, now)
  {
    EndsTurnExact(s);
    var a := s.(input := s.input.(attempted := true, state := Waiting));
    SpeculatesExact(u, a, id, now);
    assert Guesses(u, a, now) <==> Guesses(u, s, now);
    hide CommitTurn, EndsTurn, StartSpeculation, Guesses;
  }

  // The classifier is asked once about each revision of an open pause.
  predicate Asks(s: Session, idle: bool, now: int) {
    idle && s.pause.attempted != s.pause.revision && now >= s.pause.notBefore
  }

  function AskedAgain(s: Session): Session { s.(pause := s.pause.(attempted := s.pause.revision)) }

  // One pass: at its deadline an open pause is confirmed; before, it stays open and
  // the classifier may be asked; then the silence is looked at.
  lemma PollDecides(u: Setup, s: Session, free: bool, idle: bool, id: string, now: int)
    requires Inv(u, s)
    ensures var d := Poll(u, s, free, idle, id, now);
            if Pending(s) && now >= s.pause.started + u.decisionWindow then
              && s.log + Dropped(s) + [PauseConfirmed(s.pause.id)] <= d.log && d.books == P.EndGeneration(s.books)
              && d.books.gen == "" && !Pending(d)
            else
              Waits(u, if Pending(s) && Asks(s, idle, now) then AskedAgain(s) else s, d, free, id, now)
  {
    assert !s.closed;
    var e := CheckPause(u, s, idle, now);
    if Pending(s) && now >= s.pause.started + u.decisionWindow {
      ConfirmsExact(u, s);
      ConfirmOpen(u, s);
      hide Inv, ConfirmPause, CheckEndpoint;
      WaitsExact(u, e, free, id, now);
      LateNews(u, s, e, Poll(u, s, free, idle, id, now), free, id, now);
    } else {
      hide Inv, CheckEndpoint, ConfirmPause, Waits;
      WaitsExact(u, e, free, id, now);
      NoEnd(u, e, free, id, now);
    }
  }

  lemma NoEnd(u: Setup, s: Session, free: bool, id: string, now: int)
    ensures s.input.end.None? ==> CheckEndpoint(u, s, free, id, now) == s
  {
  }

  lemma ConfirmOpen(u: Setup, s: Session)
    ensures ConfirmPause(s).closed == s.closed
  {
    hide P.EndGeneration;
  }

  // Nothing that follows takes a confirmation back.
  lemma LateNews(u: Setup, s: Session, e: Session, d: Session, free: bool, id: string, now: int)
    requires Confirms(s, e) && (d == e || Waits(u, e, d, free, id, now))
    ensures s.log + Dropped(s) + [PauseConfirmed(s.pause.id)] <= d.log && d.books == P.EndGeneration(s.books)
    ensures d.books.gen == "" && !Pending(d)
  {
    assert e.log <= d.log && d.books == e.books && d.pause == e.pause;
    hide Waits;
  }
}
