// What becomes of a guess at each step of its way: heard, asked, streamed, promoted
// into an answer, read, or given up.
module TurnGuesses {
  import opened Options
  import C = ConversationModel
  import opened TurnModel
  import opened TurnInvariant
  import opened TurnSteps
  import opened TurnWorks
  import opened TurnAnswers

  // A guess is wanted while it is the newest, runs, and is of the silence that still
  // lasts or was committed; an adopted one while its generation runs.
  predicate Wanted(s: Session, k: nat)
    requires k < |s.spec.works|
  {
    var w := s.spec.works[k];
    w.live && if w.state == Promoted then w.generation == s.books.gen && s.books.live
              else s.spec.current == Some(k)
                   && (w.committed || (w.key.turn == s.input.turn && w.key.revision == s.input.epoch))
  }

  lemma WantedExact(s: Session, k: nat)
    requires k < |s.spec.works| && !s.closed
    ensures ValidWork(s, k) <==> Wanted(s, k)
  {
  }

  // Only this guess has changed.
  ghost predicate Becomes(s: Session, d: Session, k: nat, w: Work)
    requires k < |s.spec.works|
  {
    d == s.(spec := s.spec.(works := s.spec.works[k := w]))
  }

  // It is given up: nothing of it will be used.
  predicate GivenUp(v: Work, w: Work) {
    && Done(w.state) && w.key == v.key && w.committed == v.committed && w.produced == v.produced
    && (!Done(v.state) ==>
          !w.live && w.state == WorkState.Cancelled && w.deltas == [] && w.bytes == 0 && w.result.None?)
  }

  ghost predicate GivesUp(s: Session, d: Session, k: nat, phase: Phase)
    requires k < |s.spec.works|
  {
    k < |d.spec.works| && Becomes(s, d, k, d.spec.works[k]) && GivenUp(s.spec.works[k], d.spec.works[k])
    && d.spec.works[k].phase == phase
  }

  // --- the worker -------------------------------------------------------------

  // The transcript: nothing is asked about silence, about what failed or is too long,
  // or for a guess nobody wants; otherwise the model is asked with the history as it
  // stands and the transcript behind it.
  lemma HeardDecides(u: Setup, s: Session, k: nat, text: Option<C.Text>)
    requires Inv(u, s) && At(s, k, AtStt)
    ensures s.books.items != []
    ensures var d, w := SttResult(u, s, k, text), s.spec.works[k];
            if !Wanted(s, k) then Becomes(s, d, k, w.(phase := Leaving))
            else if text.None? || |text.value| > u.maxTranscriptBytes then GivesUp(s, d, k, Leaving)
            else if u.conversation.blank(text.value) then
              Becomes(s, d, k, w.(result := Some([]), ready := true, terminal := Some(true), phase := Leaving,
                                  state := if w.committed then w.state else Ready))
            else
              match C.Context(u.conversation, s.books.items, text.value)
              case None => GivesUp(s, d, k, Leaving)
              case Some(request) => Becomes(s, d, k, w.(result := text, request := request, phase := AtModel))
  {
    hide ValidWork;
    assert s.books.items != [] && !s.closed;
    WantedExact(s, k);
    hide Inv, C.Context, ValidWork, Wanted;
  }

  // The model: a refusal gives the guess up.
  lemma ModelDecides(u: Setup, s: Session, k: nat, ok: bool)
    requires Inv(u, s) && At(s, k, AtModel)
    ensures var d, w := ModelResult(s, k, ok), s.spec.works[k];
            if !Wanted(s, k) then Becomes(s, d, k, w.(phase := Leaving))
            else if !ok then GivesUp(s, d, k, Leaving)
            else Becomes(s, d, k, w.(ready := true, phase := AtStream, state := if w.committed then w.state else Ready))
  {
    assert !s.closed;
    WantedExact(s, k);
    hide Inv, ValidWork, Wanted;
  }

  // A delta that fits is kept at the end; one that does not waits when the answer is
  // being read, and is too much for a mere guess; one larger than the whole buffer
  // ends the stream of an answer as failed.
  ghost predicate Buffers(u: Setup, s: Session, d: Session, k: nat, text: C.Text)
    requires k < |s.spec.works|
  {
    var w := s.spec.works[k];
    if w.bytes + |text| <= u.maxDeltaBytes && |w.deltas| < 1024 then
      Becomes(s, d, k, w.(deltas := w.deltas + [text], bytes := w.bytes + |text|, produced := w.produced + [text],
                          phase := AtStream))
    else if w.state != Promoted then GivesUp(s, d, k, Leaving)
    else if |text| > u.maxDeltaBytes then Becomes(s, d, k, w.(terminal := Some(false), phase := Leaving))
    else Becomes(s, d, k, w.(phase := Holding(text)))
  }

  lemma EndedGivesUp(s: Session, k: nat)
    requires k < |s.spec.works|
    ensures GivesUp(s, Leave(s, k, Ended(s.spec.works[k], WorkState.Cancelled)), k, Leaving)
  {
  }

  lemma OfferBuffers(u: Setup, s: Session, k: nat, text: C.Text)
    requires k < |s.spec.works|
    ensures Buffers(u, s, Offer(u, s, k, text), k, text)
  {
    EndedGivesUp(s, k);
    hide GivesUp, Ended;
  }

  lemma DeltaDecides(u: Setup, s: Session, k: nat, text: C.Text)
    requires Inv(u, s) && k < |s.spec.works|
    ensures s.spec.works[k].phase == AtStream ==>
              var d := StreamDelta(u, s, k, text);
              if !Wanted(s, k) then Becomes(s, d, k, s.spec.works[k].(phase := Leaving))
              else if text == [] then d == s
              else Buffers(u, s, d, k, text)
    ensures s.spec.works[k].phase == Holding(text) ==>
              var d := Retry(u, s, k);
              if !Wanted(s, k) then Becomes(s, d, k, s.spec.works[k].(phase := Leaving)) else Buffers(u, s, d, k, text)
  {
    assert !s.closed;
    hide Inv, Offer, Buffers, ValidWork, Wanted;
    WantedExact(s, k);
    OfferBuffers(u, s, k, text);
  }

  // The end of the stream: kept for the reader; a guess that breaks off is given up.
  lemma EndDecides(u: Setup, s: Session, k: nat, eof: bool)
    requires Inv(u, s) && At(s, k, AtStream)
    ensures var d, w := StreamEnd(s, k, eof), s.spec.works[k];
            if Wanted(s, k) && !eof && w.state != Promoted then GivesUp(s, d, k, Leaving)
            else Becomes(s, d, k, w.(phase := Leaving, terminal := if Wanted(s, k) then Some(eof) else w.terminal))
  {
    assert !s.closed;
    hide Inv;
  }

  // The worker is gone, and another guess may begin.
  lemma GoneDecides(s: Session, k: nat)
    requires At(s, k, Leaving)
    ensures WorkerGone(s, k) ==
            s.(spec := s.spec.(works := s.spec.works[k := s.spec.works[k].(phase := Gone)], busy := false))
  {
  }

  // A guess takes too long; an answer may.
  lemma TimeoutDecides(s: Session, k: nat)
    requires k < |s.spec.works|
    ensures var d := WorkTimeout(s, k);
            if s.spec.current == Some(k) && s.spec.works[k].live && s.spec.works[k].state != Promoted
            then GivesUp(s, d, k, s.spec.works[k].phase) else d == s
  {
  }

  // --- promotion --------------------------------------------------------------

  // The guess of this key was committed, is wanted, and still waits.
  predicate Promotable(u: Setup, s: Session, ctx: nat, key: Key) {
    && u.speculation && Open(s, ctx) && s.spec.current.Some? && s.spec.current.value < |s.spec.works|
    && var w := s.spec.works[s.spec.current.value];
       w.key == key && w.committed && w.live && w.state != Promoted
  }

  // The guess is taken over: what is answered is its transcript; its stream is the
  // answer's if it was asked what the answer is asked, and is thrown away otherwise.
  ghost predicate Adopts(u: Setup, s: Session, d: Session, k: nat, ctx: nat, user: string, item: string, gen: string)
    requires k < |s.spec.works| && s.spec.works[k].result.Some? && s.books.items != []
  {
    var w := s.spec.works[k];
    var b := BeginResponse(u, s, ctx, w.result.value, false, user, item, gen);
    && d == b.(spec := d.spec, log := b.log + [WorkPromoted(k, ctx, gen)])
    && |d.spec.works| == |s.spec.works| && d.spec == s.spec.(works := s.spec.works[k := d.spec.works[k]])
    && d.spec.works[k] == (if w.request == b.generation.request
                           then w.(state := Promoted, generation := gen, adopted := true)
                           else w.(state := Promoted, generation := gen, adopted := false, live := false, deltas := [],
                                   bytes := 0))
  }

  // A promotion that has to wait changes nothing; one that comes too late, or whose
  // transcript is no turn, gives the guess up; silence uses the context and begins
  // nothing; everything else is answered with the guess.
  lemma PromotionDecides(u: Setup, s: Session, ctx: nat, key: Key, user: string, item: string, gen: string, now: int)
    requires Inv(u, s) && Unused(s, user) && Unused(s, item) && Unused(s, gen) && user != gen && user != item
             && item != gen
    ensures s.books.items != []
    ensures var d := Promote(u, s, ctx, key, user, item, gen, now);
            if !Promotable(u, s, ctx, key) then d == s
            else
              var k := s.spec.current.value;
              var w := s.spec.works[k];
              if now >= w.started + u.timeout then GivesUp(s, d, k, w.phase)
              else if !w.ready || w.result.None? then d == s
              else if w.result.value == [] then
                d == s.(response := s.response.(used := true), log := s.log + [WorkPromoted(k, ctx, "")],
                        spec := s.spec.(works := s.spec.works[k := w.(state := Promoted, generation := "")]))
              else if Speech(u.conversation, w.result.value) then Adopts(u, s, d, k, ctx, user, item, gen)
              else d.log == s.log && d.books == s.books && |d.spec.works| == |s.spec.works|
                   && GivenUp(w, d.spec.works[k])
  {
    hide TurnsOk, C.CommitUser;
    assert s.books.items != [] && !s.closed;
    hide Inv, Adopt, ValidWork, Adopts, Ended, Usable;
    if Promotable(u, s, ctx, key) {
      var k := s.spec.current.value;
      WaitingValid(u, s, ctx, key);
      EndedGives(s.spec.works[k], WorkState.Cancelled);
      if s.spec.works[k].result.Some? { AdoptDecides(u, s, k, ctx, user, item, gen); }
    } else {
      NoPromotion(u, s, ctx, key, user, item, gen, now);
    }
  }

  lemma EndedGives(w: Work, state: WorkState)
    requires state == WorkState.Cancelled
    ensures GivenUp(w, Ended(w, state)) && Ended(w, state).phase == w.phase
  {
  }

  lemma WaitingValid(u: Setup, s: Session, ctx: nat, key: Key)
    requires Promotable(u, s, ctx, key) && !s.closed
    ensures ValidWork(s, s.spec.current.value) && Usable(s, ctx)
  {
  }

  lemma NotWaiting(u: Setup, s: Session, ctx: nat, key: Key)
    requires !Promotable(u, s, ctx, key) && !s.closed
    ensures u.speculation && Usable(s, ctx) && s.spec.current.Some? && s.spec.current.value < |s.spec.works| ==>
              var w := s.spec.works[s.spec.current.value];
              w.key != key || !w.committed || w.state == Promoted || !ValidWork(s, s.spec.current.value)
  {
  }

  lemma NoPromotion(u: Setup, s: Session, ctx: nat, key: Key, user: string, item: string, gen: string, now: int)
    requires !Promotable(u, s, ctx, key) && !s.closed && s.books.items != []
    ensures Promote(u, s, ctx, key, user, item, gen, now) == s
  {
    NotWaiting(u, s, ctx, key);
    hide Promotable, ValidWork, Usable, Adopt, Ended;
  }

  lemma AdoptAnswers(u: Setup, s: Session, k: nat, ctx: nat, user: string, item: string, gen: string)
    requires s.books.items != [] && k < |s.spec.works| && s.spec.works[k].result.Some?
    requires s.spec.works[k].result.value != []
    ensures var d, w := Adopt(u, s, k, ctx, user, item, gen), s.spec.works[k];
            var b := BeginResponse(u, s, ctx, w.result.value, false, user, item, gen);
            if Begins(u, s, ctx, w.result.value, user) then Adopts(u, s, d, k, ctx, user, item, gen)
            else d.log == b.log && d.books == b.books && |d.spec.works| == |s.spec.works| && GivenUp(w, d.spec.works[k])
  {
    ResponseKeepsSpec(u, s, ctx, s.spec.works[k].result.value, user, item, gen);
    EndedGives(s.spec.works[k], WorkState.Cancelled);
    hide BeginResponse, Begins, Ended, GivenUp;
  }

  lemma AdoptSilence(u: Setup, s: Session, k: nat, ctx: nat, user: string, item: string, gen: string)
    requires s.books.items != [] && k < |s.spec.works| && s.spec.works[k].result == Some([])
    ensures Adopt(u, s, k, ctx, user, item, gen) ==
            s.(response := s.response.(used := true), log := s.log + [WorkPromoted(k, ctx, "")],
               spec := s.spec.(works := s.spec.works[k := s.spec.works[k].(state := Promoted, generation := "")]))
  {
    hide BeginResponse, Begins;
  }

  lemma AdoptDecides(u: Setup, s: Session, k: nat, ctx: nat, user: string, item: string, gen: string)
    requires Inv(u, s) && Unused(s, user) && Unused(s, item) && Unused(s, gen) && user != gen && user != item
             && item != gen
    requires k < |s.spec.works| && s.spec.works[k].result.Some? && Open(s, ctx)
    ensures s.books.items != []
    ensures var d, w := Adopt(u, s, k, ctx, user, item, gen), s.spec.works[k];
            if w.result.value == [] then
              d == s.(response := s.response.(used := true), log := s.log + [WorkPromoted(k, ctx, "")],
                      spec := s.spec.(works := s.spec.works[k := w.(state := Promoted, generation := "")]))
            else if Speech(u.conversation, w.result.value) then Adopts(u, s, d, k, ctx, user, item, gen)
            else d.log == s.log && d.books == s.books && |d.spec.works| == |s.spec.works| && GivenUp(w, d.spec.works[k])
  {
    assert s.books.items != [];
    var text := s.spec.works[k].result.value;
    hide Inv, Answers, BeginResponse, Begins, Speech, Adopt, Adopts, GivenUp;
    if text == [] {
      AdoptSilence(u, s, k, ctx, user, item, gen);
    } else {
      ResponseDecides(u, s, ctx, text, false, user, item, gen);
      AdoptAnswers(u, s, k, ctx, user, item, gen);
    }
  }

  // --- the reader -------------------------------------------------------------

  // The reader of an adopted stream takes one delta after another, in order.
  lemma ReadDecides(u: Setup, s: Session, k: nat)
    requires Inv(u, s) && k < |s.spec.works|
    ensures var d, w := ReadDelta(s, k), s.spec.works[k];
            if !w.adopted || !w.live || w.generation != s.books.gen || !s.books.live || w.deltas == [] then d == s
            else Becomes(s, d, k, w.(deltas := w.deltas[1..], bytes := d.spec.works[k].bytes,
                                     delivered := w.delivered + [w.deltas[0]]))
  {
    WorkFacts(u, s, k);
    hide Inv;
  }

  // The reader leaves, or its generation is over: nothing of the stream is used any more.
  lemma ReaderLeaves(s: Session, k: nat)
    requires k < |s.spec.works|
    ensures var w := CloseStream(s, k).spec.works;
            |w| == |s.spec.works| && !w[k].live && w[k].deltas == [] && w[k].result.None?
              && forall j | 0 <= j < |w| && j != k :: w[j] == s.spec.works[j]
    ensures var w := GenerationGone(s, k).spec.works;
            && |w| == |s.spec.works| && (forall j | 0 <= j < |w| && j != k :: w[j] == s.spec.works[j])
            && w[k] == (if s.spec.works[k].state == Promoted
                           && !(s.books.live && s.spec.works[k].generation == s.books.gen)
                        then s.spec.works[k].(live := false) else s.spec.works[k])
  {
  }

  // A closed session answers nothing any more.
  lemma CloseDecides(s: Session)
    ensures var d := Close(s);
            d.closed && !d.books.live && !d.response.live && d.log == s.log && d.books.items == s.books.items
              && d.spec == s.spec && d.input == s.input && d.pause == s.pause
  {
  }
}
