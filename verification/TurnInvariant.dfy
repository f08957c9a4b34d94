// What every locked section of a live session keeps true.
module TurnInvariant {
  import opened Arithmetic
  import opened Options
  import C = ConversationModel
  import H = ConversationHistory
  import B = ConversationBounds
  import P = Playback
  import opened TurnModel

  // --- input -----------------------------------------------------------------

  // An endpoint is being waited for exactly after speech ended.
  ghost predicate InputOk(i: Input) {
    && (i.active <==> i.state != Idle) && (i.active ==> i.realtime)
    && (i.end.Some? <==> i.state == PossibleEnd || i.state == Waiting)
    && (i.ready ==> i.end.Some?) && (i.attempted ==> i.end.Some?)
  }

  ghost predicate Mid(state: TurnState) { state == Speaking || state == PossibleEnd || state == Waiting }

  // The buffer is the tail of everything heard: at most the pre-roll while
  // listening, the pre-roll before speech and everything since during a turn.
  ghost predicate AudioOk(state: TurnState, buffer: Bytes, stream: Bytes, lo: nat, listen: nat, spoke: nat) {
    && listen <= lo <= |stream| && listen <= spoke <= |stream| && buffer == stream[lo..]
    && (state == Idle ==> buffer == [])
    && (state == Listening ==> lo == Max(listen, |stream| - PRE_ROLL))
    && (Mid(state) ==> lo == Max(listen, spoke - PRE_ROLL))
  }

  // A committed turn is the pre-roll before its speech and everything up to the commit.
  ghost predicate CommitOk(e: Entry, stream: Bytes, listen: nat) {
    e.TurnCommitted? ==>
      && e.listen <= e.spoke <= e.hi <= listen <= |stream| && e.lo < e.hi
      && e.lo == Max(e.listen, e.spoke - PRE_ROLL) && e.audio == stream[e.lo..e.hi]
  }

  // Committed turns come from disjoint stretches of input, in order.
  ghost predicate CommitsOk(log: seq<Entry>, stream: Bytes, listen: nat) {
    && (forall i | 0 <= i < |log| :: CommitOk(log[i], stream, listen))
    && (forall i, j | 0 <= i < j < |log| && log[i].TurnCommitted? && log[j].TurnCommitted? ::
          log[i].hi <= log[j].listen)
  }

  // --- pauses ----------------------------------------------------------------

  // A pending pause is of the current, running generation, within a turn, and
  // the timeline is paused exactly while one is pending.
  ghost predicate PauseOk(p: Pause, gen: string, live: bool, timeline: Option<P.Timeline>, state: TurnState,
      turn: string) {
    && (gen != "" ==> live)
    && (p.state == Paused ==> gen != "" && p.generation == gen && Mid(state) && p.turn == turn)
    && (timeline.Some? ==> (timeline.value.paused <==> p.state == Paused))
  }

  // --- response contexts -----------------------------------------------------

  ghost predicate ResponseOk(r: Response, contexts: nat, log: seq<Entry>) {
    && r.ctx == contexts && (r.live ==> r.cancellable) && (r.cancellable ==> r.ctx != 0)
    && (forall i | 0 <= i < |log| && log[i].ResponseDropped? ::
          log[i].ctx <= contexts && (log[i].ctx == r.ctx ==> !r.cancellable))
    && (forall i | 0 <= i < |log| && log[i].GenerationBegun? ::
          log[i].ctx <= contexts && (log[i].ctx == r.ctx ==> r.used))
    && (forall i | 0 <= i < |log| && log[i].TurnCommitted? :: log[i].ctx <= contexts)
    && (forall i, j | 0 <= i < j < |log| && log[i].GenerationBegun? && log[j].GenerationBegun? ::
          log[i].ctx != log[j].ctx)
    && (forall i, j | 0 <= i < j < |log| && log[i].TurnCommitted? && log[j].TurnCommitted? :: log[i].ctx != log[j].ctx)
  }

  // --- turns -----------------------------------------------------------------

  ghost predicate IssuedOk(items: seq<C.Item>, gen: string, ids: set<string>, spent: set<string>) {
    && "" !in ids && spent <= ids
    && (forall k | 1 <= k < |items| :: items[k].turn in spent)
    && (forall k | 0 <= k < |items| && items[k].role == C.Assistant :: items[k].generation in ids)
    && (gen != "" ==> gen in ids)
  }

  // The turn being spoken and the one being answered are new to history.
  ghost predicate TurnsOk(ids: set<string>, spent: set<string>, turn: string, state: TurnState, r: Response) {
    && (turn != "" ==> turn in ids)
    && (Mid(state) ==> turn != "" && turn !in spent && turn != r.turn)
    && (r.turn == "" || r.turn in ids) && (r.ctx != 0 ==> r.turn in ids && (!r.used ==> r.turn !in spent))
  }

  // A turn is committed once and answered once.
  ghost predicate TurnLogOk(log: seq<Entry>, ids: set<string>, spent: set<string>, turn: string, state: TurnState) {
    && (forall i | 0 <= i < |log| && log[i].GenerationBegun? :: log[i].turn in spent && log[i].generation in ids)
    && (forall i, j | 0 <= i < j < |log| && log[i].GenerationBegun? && log[j].GenerationBegun? ::
          log[i].turn != log[j].turn && log[i].generation != log[j].generation)
    && (forall i | 0 <= i < |log| && log[i].TurnCommitted? ::
          log[i].turn in ids && (Mid(state) ==> log[i].turn != turn))
    && (forall i, j | 0 <= i < j < |log| && log[i].TurnCommitted? && log[j].TurnCommitted? ::
          log[i].turn != log[j].turn)
  }

  // --- speculation -----------------------------------------------------------

  function Total(deltas: seq<C.Text>): nat {
    if deltas == [] then 0 else Total(deltas[..|deltas| - 1]) + |deltas[|deltas| - 1]|
  }

  // The buffer holds what was produced and not yet read, within its limits; only
  // an adopted stream is ever read, and it answers the official request.
  ghost predicate WorkOk(u: Setup, w: Work, gen: string, request: seq<C.Message>) {
    && w.bytes == Total(w.deltas) && w.bytes <= u.maxDeltaBytes && |w.deltas| <= 1024
    && w.delivered <= w.produced && (w.live ==> w.produced == w.delivered + w.deltas)
    && (w.delivered != [] ==> w.adopted)
    && (w.adopted ==> w.state == Promoted && w.generation != "")
    && (w.state == Promoted || w.state == Committed ==> w.committed)
    && (w.state == Promoted ==> w.ready) && (w.phase == AtStt || w.phase == AtModel ==> !w.ready)
    && (w.adopted && w.live && w.generation == gen ==> w.request == request)
  }

  ghost predicate SpecOk(u: Setup, spec: Speculation, ids: set<string>, gen: string, request: seq<C.Message>) {
    && spec.current == (if spec.works == [] then None else Some(|spec.works| - 1))
    && (forall k | 0 <= k < |spec.works| :: WorkOk(u, spec.works[k], gen, request))
    && (forall k | 0 <= k < |spec.works| && spec.works[k].phase != Gone :: spec.busy && k == |spec.works| - 1)
    && (forall k | 0 <= k < |spec.works| && spec.works[k].generation != "" :: spec.works[k].generation in ids)
  }

  // A commit of the key's own turn published the key and the context together.
  ghost predicate PublishedAt(log: seq<Entry>, i: nat, ctx: nat, key: Key)
    requires i < |log|
  {
    log[i].TurnCommitted? && log[i].ctx == ctx && log[i].key == Some(key) && log[i].turn == key.turn
  }

  ghost predicate Published(log: seq<Entry>, ctx: nat, key: Key) {
    exists i | 0 <= i < |log| :: PublishedAt(log, i, ctx, key)
  }

  // The commit barrier: work was promoted in a context that its own key was
  // published with at a commit, and that nothing had dropped since.
  ghost predicate Crossed(log: seq<Entry>, j: nat, key: Key)
    requires j < |log| && log[j].WorkPromoted?
  {
    && (exists i | 0 <= i < j :: PublishedAt(log, i, log[j].ctx, key))
    && (forall d | 0 <= d < j :: log[d] != ResponseDropped(log[j].ctx))
  }

  ghost predicate PromotedOk(log: seq<Entry>, works: seq<Work>) {
    forall j | 0 <= j < |log| && log[j].WorkPromoted? ::
      log[j].work < |works| && works[log[j].work].committed && Crossed(log, j, works[log[j].work].key)
  }

  // Marked by a commit, running, and not yet promoted.
  predicate Held(spec: Speculation) {
    && spec.current.Some? && spec.current.value < |spec.works|
    && var w := spec.works[spec.current.value];
       w.committed && w.live && w.state != Promoted
  }

  predicate Done(state: WorkState) { state == Invalidated || state == Cancelled }

  // Ended work never runs again.
  ghost predicate Sealed(works: seq<Work>) { forall k | 0 <= k < |works| && Done(works[k].state) :: !works[k].live }

  // While a turn is spoken nothing waits to be answered; marked work that is
  // held beside a live context was marked by the commit that opened it.
  ghost predicate HeldOk(s: Session) {
    && (Mid(s.input.state) ==> !s.response.live && !Held(s.spec))
    && (Held(s.spec) && s.response.live ==> Published(s.log, s.response.ctx, s.spec.works[s.spec.current.value].key))
    && Sealed(s.spec.works)
  }

  ghost predicate Inv(u: Setup, s: Session) {
    && !s.closed
    && P.BooksOk(u.conversation, s.books)
    && InputOk(s.input)
    && AudioOk(s.input.state, s.input.buffer, s.stream, s.lo, s.listen, s.spoke)
    && CommitsOk(s.log, s.stream, s.listen)
    && PauseOk(s.pause, s.books.gen, s.books.live, s.books.timeline, s.input.state, s.input.turn)
    && ResponseOk(s.response, s.contexts, s.log)
    && IssuedOk(s.books.items, s.books.gen, s.ids, s.spent)
    && TurnsOk(s.ids, s.spent, s.input.turn, s.input.state, s.response)
    && TurnLogOk(s.log, s.ids, s.spent, s.input.turn, s.input.state)
    && SpecOk(u, s.spec, s.ids, s.books.gen, s.generation.request)
    && PromotedOk(s.log, s.spec.works)
  }

  // --- the log grows ---------------------------------------------------------

  predicate Plain(e: Entry) { e.Suspected? || e.PauseConfirmed? || e.PauseRecovered? || e.DetectorLaunched? }

  lemma PromotedAppend(log: seq<Entry>, works: seq<Work>, e: Entry)
    requires PromotedOk(log, works) && !e.WorkPromoted?
    ensures PromotedOk(log + [e], works)
  {
    var all := log + [e];
    forall j | 0 <= j < |all| && all[j].WorkPromoted?
      ensures all[j].work < |works| && works[all[j].work].committed && Crossed(all, j, works[all[j].work].key)
    {
      assert Crossed(log, j, works[log[j].work].key);
      var i :| 0 <= i < j && PublishedAt(log, i, log[j].ctx, works[log[j].work].key);
      assert PublishedAt(all, i, all[j].ctx, works[all[j].work].key);
    }
  }

  lemma CommitsAppend(log: seq<Entry>, stream: Bytes, listen: nat, e: Entry)
    requires CommitsOk(log, stream, listen) && !e.TurnCommitted?
    ensures CommitsOk(log + [e], stream, listen)
  {}

  lemma ResponseAppend(r: Response, contexts: nat, log: seq<Entry>, e: Entry)
    requires ResponseOk(r, contexts, log) && !e.ResponseDropped? && !e.GenerationBegun? && !e.TurnCommitted?
    ensures ResponseOk(r, contexts, log + [e])
  {}

  lemma TurnLogAppend(log: seq<Entry>, ids: set<string>, spent: set<string>, turn: string, state: TurnState, e: Entry)
    requires TurnLogOk(log, ids, spent, turn, state) && !e.GenerationBegun? && !e.TurnCommitted?
    ensures TurnLogOk(log + [e], ids, spent, turn, state)
  {}

  lemma PlainNote(u: Setup, s: Session, e: Entry)
    requires Inv(u, s) && Plain(e)
    ensures Inv(u, Note(s, e))
  {
    hide P.BooksOk, InputOk, AudioOk, CommitsOk, PauseOk, ResponseOk, IssuedOk, TurnsOk, TurnLogOk, SpecOk, PromotedOk;
    CommitsAppend(s.log, s.stream, s.listen, e);
    ResponseAppend(s.response, s.contexts, s.log, e);
    TurnLogAppend(s.log, s.ids, s.spent, s.input.turn, s.input.state, e);
    PromotedAppend(s.log, s.spec.works, e);
  }

  // --- small helpers ---------------------------------------------------------

  lemma DroppedAppend(r: Response, contexts: nat, log: seq<Entry>)
    requires ResponseOk(r, contexts, log) && r.cancellable
    ensures ResponseOk(r.(live := false, cancellable := false), contexts, log + [ResponseDropped(r.ctx)])
  {}

  lemma CancelResponseOk(u: Setup, s: Session)
    requires Inv(u, s)
    ensures Inv(u, CancelResponse(s)) && !CancelResponse(s).response.cancellable
    ensures CancelResponse(s) ==
            s.(response := s.response.(live := false, cancellable := false), log := CancelResponse(s).log)
  {
    hide P.BooksOk, InputOk, AudioOk, CommitsOk, PauseOk, IssuedOk, TurnLogOk, SpecOk, PromotedOk;
    if s.response.cancellable {
      var e := ResponseDropped(s.response.ctx);
      DroppedAppend(s.response, s.contexts, s.log);
      CommitsAppend(s.log, s.stream, s.listen, e);
      TurnLogAppend(s.log, s.ids, s.spent, s.input.turn, s.input.state, e);
      PromotedAppend(s.log, s.spec.works, e);
      hide ResponseOk;
    }
  }

  lemma EndedOk(u: Setup, w: Work, state: WorkState, gen: string, request: seq<C.Message>)
    requires WorkOk(u, w, gen, request) && w.state != Promoted && (state == Invalidated || state == Cancelled)
    ensures WorkOk(u, Ended(w, state), gen, request)
  {}

  // Replacing one work by another that keeps its identity.
  lemma SetWorkOk(u: Setup, s: Session, k: nat, w: Work)
    requires Inv(u, s) && k < |s.spec.works|
    requires WorkOk(u, w, s.books.gen, s.generation.request)
    requires var v := s.spec.works[k];
             && w.key == v.key && (v.committed ==> w.committed) && (w.phase != Gone ==> v.phase != Gone)
             && (w.generation != "" ==> w.generation in s.ids)
    ensures Inv(u, SetWork(s, k, w))
  {
    hide P.BooksOk, InputOk, AudioOk, CommitsOk, PauseOk, ResponseOk, IssuedOk, TurnsOk, TurnLogOk, WorkOk;
    var works := s.spec.works[k := w];
    assert PromotedOk(s.log, works) by {
      forall j | 0 <= j < |s.log| && s.log[j].WorkPromoted?
        ensures s.log[j].work < |works| && works[s.log[j].work].committed
                && Crossed(s.log, j, works[s.log[j].work].key) {}
    }
  }

  lemma LastWork(u: Setup, s: Session)
    requires SpecOk(u, s.spec, s.ids, s.books.gen, s.generation.request)
    ensures s.spec.works == [] ==> s.spec.current.None?
    ensures s.spec.works != [] ==>
              && s.spec.current == Some(|s.spec.works| - 1)
              && WorkOk(u, s.spec.works[|s.spec.works| - 1], s.books.gen, s.generation.request)
              && (s.spec.works[|s.spec.works| - 1].generation != "" ==>
                  s.spec.works[|s.spec.works| - 1].generation in s.ids)
  {}

  lemma InvalidateSpeculationOk(u: Setup, s: Session, state: WorkState)
    requires Inv(u, s) && (state == Invalidated || state == Cancelled)
    ensures Inv(u, InvalidateSpeculation(s, state))
    ensures InvalidateSpeculation(s, state) == s.(spec := InvalidateSpeculation(s, state).spec)
  {
    hide P.Core, PromotedOk, ResponseOk, TurnLogOk, TurnsOk;
    assert SpecOk(u, s.spec, s.ids, s.books.gen, s.generation.request);
    hide Inv, WorkOk, SpecOk;
    LastWork(u, s);
    if s.spec.works != [] && s.spec.works[|s.spec.works| - 1].state != Promoted {
      var k := |s.spec.works| - 1;
      EndedOk(u, s.spec.works[k], state, s.books.gen, s.generation.request);
      SetWorkOk(u, s, k, Ended(s.spec.works[k], state));
    }
  }

  // --- input helpers ---------------------------------------------------------

  // Changes of the input that concern neither audio nor turns.
  lemma EndpointOk(u: Setup, s: Session, i: Input)
    requires Inv(u, s) && InputOk(i)
    requires i.buffer == s.input.buffer && i.turn == s.input.turn && i.state == s.input.state
    ensures Inv(u, s.(input := i))
  {
    hide P.BooksOk, AudioOk, CommitsOk, PauseOk, ResponseOk, IssuedOk, TurnsOk, TurnLogOk, SpecOk, PromotedOk;
  }

  // Within a turn the state may move between speaking and waiting.
  lemma MidTurnOk(u: Setup, s: Session, i: Input)
    requires Inv(u, s) && InputOk(i) && Mid(s.input.state) && Mid(i.state)
    requires i.buffer == s.input.buffer && i.turn == s.input.turn
    ensures Inv(u, s.(input := i))
  {
    hide P.BooksOk, CommitsOk, ResponseOk, IssuedOk, SpecOk, PromotedOk;
  }

  // Listening starts over with an empty buffer, in no turn.
  lemma ListenOk(u: Setup, s: Session, i: Input)
    requires Inv(u, s) && InputOk(i) && !Pending(s)
    requires i.buffer == [] && (i.state == Listening || i.state == Idle) && (i.turn == "" || i.turn == s.input.turn)
    ensures Inv(u, DropAudio(s).(input := i))
  {
    hide P.BooksOk, ResponseOk, IssuedOk, SpecOk, PromotedOk;
    assert AudioOk(i.state, [], s.stream, |s.stream|, |s.stream|, |s.stream|);
    CommitsLater(s.log, s.stream, s.listen, |s.stream|);
    hide CommitsOk;
  }

  lemma CommitsLater(log: seq<Entry>, stream: Bytes, listen: nat, later: nat)
    requires CommitsOk(log, stream, listen) && listen <= later <= |stream|
    ensures CommitsOk(log, stream, later)
  {}

  // --- pause helpers ---------------------------------------------------------

  // Bookkeeping of a pause that neither opens nor closes it.
  lemma PauseFieldsOk(u: Setup, s: Session, p: Pause)
    requires Inv(u, s) && (p.state == Paused <==> s.pause.state == Paused)
    requires p.generation == s.pause.generation && p.turn == s.pause.turn
    ensures Inv(u, s.(pause := p))
  {
    hide P.BooksOk, InputOk, AudioOk, CommitsOk, ResponseOk, IssuedOk, TurnsOk, TurnLogOk, SpecOk, PromotedOk;
  }

  // --- generations -----------------------------------------------------------

  ghost predicate SameTurns(a: seq<C.Item>, b: seq<C.Item>) {
    |a| == |b| && forall i | 0 <= i < |a| :: P.SameIdentity(a[i], b[i])
  }

  lemma SameIssued(a: seq<C.Item>, b: seq<C.Item>, gen: string, ids: set<string>, spent: set<string>)
    requires IssuedOk(a, gen, ids, spent) && SameTurns(a, b)
    ensures IssuedOk(b, gen, ids, spent) && IssuedOk(b, "", ids, spent)
  {
    forall k | 1 <= k < |b| ensures b[k].turn in spent { assert P.SameIdentity(a[k], b[k]); }
    forall k | 0 <= k < |b| && b[k].role == C.Assistant ensures b[k].generation in ids {
      assert P.SameIdentity(a[k], b[k]);
    }
  }

  // Without a generation no adopted stream is current.
  lemma SpecElsewhere(u: Setup, spec: Speculation, ids: set<string>, gen: string, request: seq<C.Message>,
      other: string, asked: seq<C.Message>)
    requires SpecOk(u, spec, ids, gen, request) && (other == "" || other !in ids)
    ensures SpecOk(u, spec, ids, other, asked)
  {}

  lemma SpecMoreIds(u: Setup, spec: Speculation, ids: set<string>, more: set<string>, gen: string,
      request: seq<C.Message>)
    requires SpecOk(u, spec, ids, gen, request) && ids <= more
    ensures SpecOk(u, spec, more, gen, request)
  {}

  // Ending the generation ends its pause and unpauses its timeline.
  lemma EndedPause(s: Session)
    requires PauseOk(s.pause, s.books.gen, s.books.live, s.books.timeline, s.input.state, s.input.turn)
    ensures var b, p := P.EndGeneration(s.books), InvalidatePause(s).pause;
            PauseOk(p, b.gen, b.live, b.timeline, s.input.state, s.input.turn)
  {}

  lemma CancelGenerationOk(u: Setup, s: Session)
    requires Inv(u, s)
    ensures Inv(u, CancelGenerationLocked(s)) && !Pending(CancelGenerationLocked(s))
    ensures var d := CancelGenerationLocked(s);
            && d.books.gen == "" && B.Settled(d.books.items) && !d.response.cancellable && d.input == s.input
            && d.spec == s.spec
            && d.stream == s.stream && d.lo == s.lo && d.listen == s.listen && d.spoke == s.spoke && d.ids == s.ids
            && d.spent == s.spent
            && d.pause.id == s.pause.id
  {
    hide InputOk, AudioOk, CommitsOk, ResponseOk, TurnsOk, TurnLogOk, PromotedOk, P.BooksOk, PauseOk, IssuedOk, SpecOk,
         P.FinalizeCurrent;
    P.EndGenerationOk(u.conversation, s.books);
    P.FinalizeSameIds(u.conversation, s.books, "");
    SameIssued(s.books.items, P.FinalizeCurrent(s.books).items, s.books.gen, s.ids, s.spent);
    SpecElsewhere(u, s.spec, s.ids, s.books.gen, s.generation.request, "", s.generation.request);
    EndedPause(s);
    var d := InvalidatePause(s.(books := P.EndGeneration(s.books)));
    CancelResponseOk(u, d);
  }

  // Items after an answer is begun are the old ones, some evicted, and the new one.
  lemma BegunIssued(c: C.Config, items: seq<C.Item>, item: string, turn: string, gen: string, textOnly: bool,
                    ids: set<string>, spent: set<string>)
    requires items != [] && IssuedOk(items, "", ids, spent) && gen != "" && C.FindAssistant(items, gen, 0) == |items|
             && turn in ids
    requires item != ""
    ensures IssuedOk(C.BeginAssistant(c, items, item, turn, gen, textOnly), gen, ids + {item, gen}, spent + {turn})
  {
    var all := items + [C.AssistantItem(item, turn, gen, textOnly)];
    assert IssuedOk(all, gen, ids + {item, gen}, spent + {turn});
    TrimIssued(c, all, turn, gen, ids + {item, gen}, spent + {turn});
  }

  lemma TrimIssued(c: C.Config, items: seq<C.Item>, current: string, gen: string, ids: set<string>, spent: set<string>)
    requires items != [] && IssuedOk(items, gen, ids, spent)
    ensures IssuedOk(C.Trim(c, items, current), gen, ids, spent)
  {
    var k := H.TrimIsSuffix(c, items, current);
    var kept := C.Kept(items, k);
    assert forall i | 1 <= i < |kept| :: kept[i] == items[i + k - 1];
    hide C.Kept;
  }

  lemma NewGenerationPause(u: Setup, s: Session, turn: string, textOnly: bool, item: string, gen: string)
    requires s.books.items != [] && !s.closed
    ensures var d := StartGenerationLocked(u, s, turn, textOnly, item, gen);
            PauseOk(d.pause, d.books.gen, d.books.live, d.books.timeline, d.input.state, d.input.turn)
  {}

  lemma {:induction false} UnusedGeneration(items: seq<C.Item>, gen: string, ids: set<string>, spent: set<string>,
      from: nat)
    requires IssuedOk(items, "", ids, spent) && gen !in ids && from <= |items|
    ensures C.FindAssistant(items, gen, from) == |items|
    decreases |items| - from
  {
    if from < |items| { UnusedGeneration(items, gen, ids, spent, from + 1); }
  }

  lemma NewIds(u: Setup, s: Session, ids: set<string>, spent: set<string>)
    requires IssuedOk(s.books.items, s.books.gen, s.ids, s.spent)
    requires TurnsOk(s.ids, s.spent, s.input.turn, s.input.state, s.response)
    requires TurnLogOk(s.log, s.ids, s.spent, s.input.turn, s.input.state)
    requires s.ids <= ids && s.spent <= spent && spent <= ids && "" !in ids
    requires Mid(s.input.state) ==> s.input.turn !in spent
    requires s.response.ctx != 0 && !s.response.used ==> s.response.turn !in spent
    ensures TurnsOk(ids, spent, s.input.turn, s.input.state, s.response)
    ensures TurnLogOk(s.log, ids, spent, s.input.turn, s.input.state)
    ensures IssuedOk(s.books.items, s.books.gen, ids, spent)
  {}

  predicate Unused(s: Session, id: string) { id != "" && id !in s.ids }

  // A fresh generation answers a turn that history does not hold, or holds last.
  lemma StartGenerationOk(u: Setup, s: Session, turn: string, textOnly: bool, item: string, gen: string)
    requires Inv(u, s) && Unused(s, item) && Unused(s, gen)
    requires turn in s.ids && (Mid(s.input.state) ==> s.input.turn != turn)
    requires s.response.ctx != 0 && !s.response.used ==> s.response.turn != turn
    requires B.Answerable(P.FinalizeCurrent(s.books).items, turn)
    ensures var d := StartGenerationLocked(u, s, turn, textOnly, item, gen);
            && Inv(u, d) && !Pending(d) && d.books.gen == gen && d.log == s.log && d.response == s.response
            && d.spec == s.spec
            && d.ids == s.ids + {item, gen} && d.spent == s.spent + {turn}
            && d.input == s.input && d.generation == Generation(false, textOnly, [])
  {
    hide InputOk, AudioOk, CommitsOk, ResponseOk, TurnsOk, TurnLogOk, PromotedOk, P.BooksOk, PauseOk, IssuedOk, SpecOk,
         P.FinalizeCurrent, B.Answerable;
    var b := P.FinalizeCurrent(s.books);
    P.FinalizeSameIds(u.conversation, s.books, gen);
    P.FinalizeOk(u.conversation, s.books);
    SameIssued(s.books.items, b.items, s.books.gen, s.ids, s.spent);
    UnusedGeneration(b.items, gen, s.ids, s.spent, 0);
    P.BeginGenerationOk(u.conversation, s.books, item, turn, gen, textOnly);
    BegunIssued(u.conversation, b.items, item, turn, gen, textOnly, s.ids, s.spent);
    NewGenerationPause(u, s, turn, textOnly, item, gen);
    SpecElsewhere(u, s.spec, s.ids, s.books.gen, s.generation.request, gen, []);
    SpecMoreIds(u, s.spec, s.ids, s.ids + {item, gen}, gen, []);
    assert "" !in s.ids && s.spent <= s.ids by { IssuedFacts(s); }
    SpentTurn(s, turn);
    NewIds(u, s, s.ids + {item, gen}, s.spent + {turn});
  }

  lemma IssuedFacts(s: Session)
    requires IssuedOk(s.books.items, s.books.gen, s.ids, s.spent)
    ensures "" !in s.ids && s.spent <= s.ids
  {}

  lemma SpentTurn(s: Session, turn: string)
    requires TurnsOk(s.ids, s.spent, s.input.turn, s.input.state, s.response)
    requires Mid(s.input.state) ==> s.input.turn != turn
    requires s.response.ctx != 0 && !s.response.used ==> s.response.turn != turn
    ensures Mid(s.input.state) ==> s.input.turn !in s.spent + {turn}
    ensures s.response.ctx != 0 && !s.response.used ==> s.response.turn !in s.spent + {turn}
  {}
}
