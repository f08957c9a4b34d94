// Answering committed turns, and the speculative worker's events.
module TurnWorks {
  import opened Options
  import C = ConversationModel
  import B = ConversationBounds
  import P = Playback
  import opened TurnModel
  import opened TurnInvariant

  // --- answering a committed turn ---------------------------------------------

  lemma BegunResponse(r: Response, contexts: nat, log: seq<Entry>, e: Entry)
    requires ResponseOk(r, contexts, log) && e.GenerationBegun? && e.ctx == r.ctx && !r.used
    ensures ResponseOk(r.(used := true), contexts, log + [e])
  {}

  lemma BegunTurnLog(log: seq<Entry>, ids: set<string>, spent: set<string>, turn: string, state: TurnState, e: Entry,
      more: set<string>)
    requires TurnLogOk(log, ids, spent, turn, state) && e.GenerationBegun? && e.turn !in spent && e.generation !in ids
    requires ids <= more && e.generation in more
    ensures TurnLogOk(log + [e], more, spent + {e.turn}, turn, state)
  {}

  lemma AnsweredTurns(ids: set<string>, spent: set<string>, turn: string, state: TurnState, r: Response,
      more: set<string>)
    requires TurnsOk(ids, spent, turn, state, r) && ids <= more && r.ctx != 0
    ensures TurnsOk(more, spent + {r.turn}, turn, state, r.(used := true))
  {}

  lemma UserIssued(c: C.Config, items: seq<C.Item>, user: string, turn: string, text: C.Text, ids: set<string>,
      spent: set<string>)
    requires items != [] && IssuedOk(items, "", ids, spent) && turn in ids && user != ""
    ensures IssuedOk(C.Trim(c, items + [C.UserItem(user, turn, text)], turn), "", ids + {user}, spent + {turn})
  {
    var all := items + [C.UserItem(user, turn, text)];
    assert IssuedOk(all, "", ids + {user}, spent + {turn});
    TrimIssued(c, all, turn, "", ids + {user}, spent + {turn});
  }

  // The books after the user's text was committed and its answer begun.
  lemma AnswerBooks(u: Setup, s: Session, text: C.Text, textOnly: bool, user: string, item: string, gen: string)
    requires Inv(u, s) && s.response.ctx != 0 && !s.response.used
    requires Unused(s, user) && Unused(s, item) && Unused(s, gen) && user != gen
    requires u.conversation.valid(text) && !u.conversation.blank(text) && |text| <= u.conversation.maxItemBytes
    ensures var b := P.FinalizeCurrent(s.books);
            var (items, outcome) := C.CommitUser(u.conversation, b.items, user, s.response.turn, text);
            var turn := s.response.turn;
            && b.items != [] && outcome == C.Accepted && items != []
            && C.Context(u.conversation, items, []).Some?
            && P.FinalizeCurrent(b.(items := items)) == b.(items := items)
            && P.BooksOk(u.conversation,
                         P.BeginGeneration(u.conversation, b.(items := items), item, turn, gen, textOnly))
            && IssuedOk(P.BeginGeneration(u.conversation, b.(items := items), item, turn, gen, textOnly).items, gen,
                        s.ids + {user} + {item, gen}, s.spent + {turn} + {turn})
  {
    var b := P.FinalizeCurrent(s.books);
    var turn := s.response.turn;
    assert turn in s.ids && turn !in s.spent && u.conversation.valid([]) && u.conversation.maxItemBytes >= 0;
    hide Inv, P.FinalizeCurrent, B.StoreOk, IssuedOk, B.Answerable, C.CommitUser, C.Window, P.BooksOk, B.FreshTurn;
    FinalIssued(u, s);
    UnspentFresh(b.items, turn, s.ids, s.spent);
    P.CommitUserOk(u.conversation, b.items, user, turn, text);
    UserIssued(u.conversation, b.items, user, turn, text, s.ids, s.spent);
    var items := C.CommitUser(u.conversation, b.items, user, turn, text).0;
    UnusedGeneration(items, gen, s.ids + {user}, s.spent + {turn}, 0);
    P.AnswerOk(u.conversation, b, items, item, turn, gen, textOnly);
    BegunIssued(u.conversation, items, item, turn, gen, textOnly, s.ids + {user}, s.spent + {turn});
  }

  lemma FinalIssued(u: Setup, s: Session)
    requires Inv(u, s)
    ensures var b := P.FinalizeCurrent(s.books);
            && P.BooksOk(u.conversation, b) && b.items != [] && B.Settled(b.items)
            && IssuedOk(b.items, "", s.ids, s.spent)
            && B.StoreOk(u.conversation, b.items) && C.ValidConfig(u.conversation)
  {
    assert P.BooksOk(u.conversation, s.books) && IssuedOk(s.books.items, s.books.gen, s.ids, s.spent);
    hide Inv, P.FinalizeCurrent, B.StoreOk, IssuedOk, P.BooksOk;
    P.FinalizeOk(u.conversation, s.books);
    P.FinalizeSameIds(u.conversation, s.books, "");
    SameIssued(s.books.items, P.FinalizeCurrent(s.books).items, s.books.gen, s.ids, s.spent);
    SettledBooks(u, P.FinalizeCurrent(s.books));
  }

  lemma SettledBooks(u: Setup, b: P.Books)
    requires P.BooksOk(u.conversation, b)
    ensures b.items != [] && B.StoreOk(u.conversation, b.items) && C.ValidConfig(u.conversation)
  {}

  lemma UnspentFresh(items: seq<C.Item>, turn: string, ids: set<string>, spent: set<string>)
    requires IssuedOk(items, "", ids, spent) && turn !in spent
    ensures B.FreshTurn(items, turn)
  {}

  // Consuming a context: its text enters history, its generation starts, once.
  lemma BeginResponseOk(u: Setup, s: Session, ctx: nat, text: C.Text, textOnly: bool, user: string, item: string,
      gen: string)
    requires Inv(u, s) && Unused(s, user) && Unused(s, item) && Unused(s, gen) && user != gen
    ensures s.books.items != []
    ensures var d := BeginResponse(u, s, ctx, text, textOnly, user, item, gen);
            && Inv(u, d) && d.spec == s.spec
            && (if Begins(u, s, ctx, text, user)
                then d.log == s.log + [GenerationBegun(ctx, s.response.turn, gen)] && d.books.gen == gen && gen in d.ids
                else d.log == s.log)
  {
    assert s.books.items != [];
    if Usable(s, ctx) {
      if u.conversation.blank(text) {
        UsedOk(u, s);
      } else if C.Context(u.conversation, s.books.items, text).Some? {
        AnswerBooks(u, s, text, textOnly, user, item, gen);
        AnsweredOk(u, s, text, textOnly, user, item, gen);
        AnswerShape(u, s, ctx, text, textOnly, user, item, gen);
      }
    }
  }

  lemma UsedOk(u: Setup, s: Session)
    requires Inv(u, s)
    ensures Inv(u, s.(response := s.response.(used := true)))
  {
    hide P.BooksOk, InputOk, AudioOk, CommitsOk, PauseOk, IssuedOk, TurnLogOk, SpecOk, PromotedOk;
  }

  // The state once the response is accepted.
  function Answered(u: Setup, s: Session, text: C.Text, textOnly: bool, user: string, item: string,
      gen: string): Session
    requires P.FinalizeCurrent(s.books).items != []
  {
    var b := P.FinalizeCurrent(s.books);
    var items := C.CommitUser(u.conversation, b.items, user, s.response.turn, text).0;
    s.(books := P.BeginGeneration(u.conversation, b.(items := items), item, s.response.turn, gen, textOnly),
       pause := InvalidatePause(s).pause,
       generation := Generation(false, textOnly, C.Window(u.conversation, items, [])),
       response := s.response.(used := true), ids := s.ids + {user} + {item, gen},
       spent := s.spent + {s.response.turn} + {s.response.turn},
       log := s.log + [GenerationBegun(s.response.ctx, s.response.turn, gen)])
  }

  lemma AnswerShape(u: Setup, s: Session, ctx: nat, text: C.Text, textOnly: bool, user: string, item: string,
      gen: string)
    requires s.books.items != [] && Usable(s, ctx) && !u.conversation.blank(text)
    requires C.Context(u.conversation, s.books.items, text).Some?
    requires var b := P.FinalizeCurrent(s.books);
             && b.items != []
             && var (items, outcome) := C.CommitUser(u.conversation, b.items, user, s.response.turn, text);
                outcome == C.Accepted && C.Context(u.conversation, items, []).Some?
    ensures BeginResponse(u, s, ctx, text, textOnly, user, item, gen) == Answered(u, s, text, textOnly, user, item, gen)
  {
    hide P.FinalizeCurrent, P.BeginGeneration, C.CommitUser, C.Window;
  }

  lemma AnsweredPause(u: Setup, s: Session, text: C.Text, textOnly: bool, user: string, item: string, gen: string)
    requires P.FinalizeCurrent(s.books).items != []
    ensures var d := Answered(u, s, text, textOnly, user, item, gen);
            PauseOk(d.pause, d.books.gen, d.books.live, d.books.timeline, d.input.state, d.input.turn)
  {}

  lemma AnsweredOk(u: Setup, s: Session, text: C.Text, textOnly: bool, user: string, item: string, gen: string)
    requires Inv(u, s) && s.response.ctx != 0 && !s.response.used
    requires Unused(s, user) && Unused(s, item) && Unused(s, gen) && user != gen
    requires var b := P.FinalizeCurrent(s.books);
             && b.items != []
             && var items := C.CommitUser(u.conversation, b.items, user, s.response.turn, text).0;
                var n := P.BeginGeneration(u.conversation, b.(items := items), item, s.response.turn, gen, textOnly);
                && P.BooksOk(u.conversation, n)
                && IssuedOk(n.items, gen, s.ids + {user} + {item, gen}, s.spent + {s.response.turn} + {s.response.turn})
    ensures Inv(u, Answered(u, s, text, textOnly, user, item, gen))
  {
    hide P.BooksOk, InputOk, AudioOk, CommitsOk, PauseOk, IssuedOk, TurnLogOk, SpecOk, PromotedOk, ResponseOk, TurnsOk,
         P.FinalizeCurrent, C.CommitUser, C.BeginAssistant, C.Window;
    var d := Answered(u, s, text, textOnly, user, item, gen);
    var e := GenerationBegun(s.response.ctx, s.response.turn, gen);
    AnsweredPause(u, s, text, textOnly, user, item, gen);
    assert s.response.turn !in s.spent by { ResponseTurn(s); }
    assert s.spent + {e.turn} + {e.turn} == s.spent + {e.turn};
    CommitsAppend(s.log, s.stream, s.listen, e);
    BegunResponse(s.response, s.contexts, s.log, e);
    BegunTurnLog(s.log, s.ids, s.spent, s.input.turn, s.input.state, e, s.ids + {user} + {item, gen});
    AnsweredTurns(s.ids, s.spent, s.input.turn, s.input.state, s.response, s.ids + {user} + {item, gen});
    SpecElsewhere(u, s.spec, s.ids, s.books.gen, s.generation.request, gen, d.generation.request);
    SpecMoreIds(u, s.spec, s.ids, s.ids + {user} + {item, gen}, gen, d.generation.request);
    PromotedAppend(s.log, s.spec.works, e);
  }

  lemma ResponseTurn(s: Session)
    requires TurnsOk(s.ids, s.spent, s.input.turn, s.input.state, s.response) && s.response.ctx != 0 && !s.response.used
    ensures s.response.turn !in s.spent && s.response.turn in s.ids
  {}

  // --- the worker -------------------------------------------------------------

  lemma WorkFacts(u: Setup, s: Session, k: nat)
    requires Inv(u, s) && k < |s.spec.works|
    ensures WorkOk(u, s.spec.works[k], s.books.gen, s.generation.request)
    ensures s.spec.works[k].generation != "" ==> s.spec.works[k].generation in s.ids
    ensures s.books.items != []
  {}

  // Any update of one work that keeps its identity, its promises and its limits.
  lemma UpdateOk(u: Setup, s: Session, k: nat, w: Work)
    requires Inv(u, s) && k < |s.spec.works| && s.spec.works[k].phase != Gone
    requires WorkOk(u, w, s.books.gen, s.generation.request)
    requires w.key == s.spec.works[k].key && w.generation == s.spec.works[k].generation
             && (s.spec.works[k].committed ==> w.committed)
    ensures Inv(u, SetWork(s, k, w))
  {
    WorkFacts(u, s, k);
    hide Inv, WorkOk;
    SetWorkOk(u, s, k, w);
  }

  // A worker that leaves, or gives up, keeps the work's promises.
  lemma LeavingWork(u: Setup, w: Work, gen: string, request: seq<C.Message>)
    requires WorkOk(u, w, gen, request)
    ensures WorkOk(u, w.(phase := Leaving), gen, request)
    ensures w.state != Promoted ==> WorkOk(u, Ended(w, Cancelled).(phase := Leaving), gen, request)
  {}

  lemma LeaveOk(u: Setup, s: Session, k: nat)
    requires Inv(u, s) && k < |s.spec.works| && s.spec.works[k].phase != Gone
    ensures Inv(u, Leave(s, k, s.spec.works[k]))
    ensures s.spec.works[k].state != Promoted ==> Inv(u, Leave(s, k, Ended(s.spec.works[k], Cancelled)))
  {
    WorkFacts(u, s, k);
    var w := s.spec.works[k];
    hide Inv, WorkOk, Ended;
    LeavingWork(u, w, s.books.gen, s.generation.request);
    UpdateOk(u, s, k, w.(phase := Leaving));
    if w.state != Promoted {
      EndedKeeps(w);
      UpdateOk(u, s, k, Ended(w, Cancelled).(phase := Leaving));
    }
  }

  lemma EndedKeeps(w: Work)
    ensures var v := Ended(w, Cancelled);
            v.key == w.key && v.generation == w.generation && v.committed == w.committed && v.phase == w.phase
  {}

  lemma HeardWork(u: Setup, w: Work, text: C.Text, asked: seq<C.Message>, gen: string, request: seq<C.Message>)
    requires WorkOk(u, w, gen, request) && w.phase == AtStt
    ensures WorkOk(u, w.(result := Some(text)), gen, request) && w.state != Promoted
    ensures WorkOk(u, w.(result := Some(text), request := asked, phase := AtModel), gen, request)
    ensures WorkOk(u, w.(result := Some([]), ready := true, terminal := Some(true),
                         state := if w.committed then w.state else Ready, phase := Leaving), gen, request)
  {}

  lemma SttResultOk(u: Setup, s: Session, k: nat, text: Option<C.Text>)
    requires Inv(u, s) && At(s, k, AtStt)
    ensures s.books.items != [] && Inv(u, SttResult(u, s, k, text))
  {
    hide Inv, WorkOk, ValidWork, C.Window, Leave, Ended;
    WorkFacts(u, s, k);
    var w := s.spec.works[k];
    var heard := if text.Some? then text.value else [];
    HeardWork(u, w, heard, [], s.books.gen, s.generation.request);
    LeaveOk(u, s, k);
    if ValidWork(s, k) && text.Some? && |heard| <= u.maxTranscriptBytes {
      if u.conversation.blank(heard) {
        SilentOk(u, s, k);
      } else if C.Context(u.conversation, s.books.items, heard).Some? {
        var asked := C.Context(u.conversation, s.books.items, heard).value;
        HeardWork(u, w, heard, asked, s.books.gen, s.generation.request);
        UpdateOk(u, s, k, w.(result := text, request := asked, phase := AtModel));
      } else {
        RefusedOk(u, s, k, heard);
      }
    }
  }

  lemma SilentOk(u: Setup, s: Session, k: nat)
    requires Inv(u, s) && At(s, k, AtStt)
    ensures var w := s.spec.works[k];
            Inv(u, Leave(s, k, w.(result := Some([]), ready := true, terminal := Some(true),
                                  state := if w.committed then w.state else Ready)))
  {
    WorkFacts(u, s, k);
    var w := s.spec.works[k];
    hide Inv, WorkOk;
    HeardWork(u, w, [], [], s.books.gen, s.generation.request);
    UpdateOk(u, s, k, w.(result := Some([]), ready := true, terminal := Some(true),
                         state := if w.committed then w.state else Ready, phase := Leaving));
  }

  lemma RefusedOk(u: Setup, s: Session, k: nat, text: C.Text)
    requires Inv(u, s) && At(s, k, AtStt)
    ensures Inv(u, Leave(s, k, Ended(s.spec.works[k].(result := Some(text)), Cancelled)))
  {
    WorkFacts(u, s, k);
    var w := s.spec.works[k].(result := Some(text));
    hide Inv, WorkOk, Ended;
    HeardWork(u, s.spec.works[k], text, [], s.books.gen, s.generation.request);
    LeavingWork(u, w, s.books.gen, s.generation.request);
    EndedKeeps(w);
    UpdateOk(u, s, k, Ended(w, Cancelled).(phase := Leaving));
  }

  lemma AnsweringWork(u: Setup, w: Work, gen: string, request: seq<C.Message>)
    requires WorkOk(u, w, gen, request) && w.phase == AtModel
    ensures WorkOk(u, w.(ready := true, state := if w.committed then w.state else Ready, phase := AtStream), gen,
                   request)
    ensures w.state != Promoted
  {}

  lemma ModelResultOk(u: Setup, s: Session, k: nat, ok: bool)
    requires Inv(u, s) && At(s, k, AtModel)
    ensures Inv(u, ModelResult(s, k, ok))
  {
    WorkFacts(u, s, k);
    var w := s.spec.works[k];
    hide Inv, WorkOk, ValidWork, Leave, Ended;
    AnsweringWork(u, w, s.books.gen, s.generation.request);
    LeaveOk(u, s, k);
    UpdateOk(u, s, k, w.(ready := true, state := if w.committed then w.state else Ready, phase := AtStream));
  }

  lemma PushOk(u: Setup, w: Work, text: C.Text, gen: string, request: seq<C.Message>)
    requires WorkOk(u, w, gen, request) && !NoRoom(u, w, text)
    ensures WorkOk(u, Push(w, text), gen, request)
  {
    assert (w.deltas + [text])[..|w.deltas|] == w.deltas;
    assert w.delivered + (w.deltas + [text]) == (w.delivered + w.deltas) + [text];
  }

  lemma WaitingWork(u: Setup, w: Work, text: C.Text, gen: string, request: seq<C.Message>)
    requires WorkOk(u, w, gen, request)
    ensures WorkOk(u, w.(phase := Holding(text)), gen, request)
    ensures forall eof :: WorkOk(u, w.(terminal := Some(eof), phase := Leaving), gen, request)
  {}

  // A delta is buffered, waited with, or ends the work; the buffer never overflows.
  lemma OfferOk(u: Setup, s: Session, k: nat, text: C.Text)
    requires Inv(u, s) && k < |s.spec.works| && s.spec.works[k].phase != Gone
    ensures Inv(u, Offer(u, s, k, text))
  {
    hide Inv;
    WorkFacts(u, s, k);
    var w := s.spec.works[k];
    hide Inv, WorkOk, Ended;
    WaitingWork(u, w, text, s.books.gen, s.generation.request);
    LeaveOk(u, s, k);
    if !NoRoom(u, w, text) {
      PushOk(u, w, text, s.books.gen, s.generation.request);
      UpdateOk(u, s, k, Push(w, text));
    } else if w.state == Promoted && |text| > u.maxDeltaBytes {
      UpdateOk(u, s, k, w.(terminal := Some(false), phase := Leaving));
    } else if w.state == Promoted {
      UpdateOk(u, s, k, w.(phase := Holding(text)));
    }
  }

  lemma StreamDeltaOk(u: Setup, s: Session, k: nat, text: C.Text)
    requires Inv(u, s) && At(s, k, AtStream)
    ensures Inv(u, StreamDelta(u, s, k, text))
  {
    hide Inv, Offer, ValidWork, Leave;
    LeaveOk(u, s, k);
    OfferOk(u, s, k, text);
  }

  lemma StreamEndOk(u: Setup, s: Session, k: nat, eof: bool)
    requires Inv(u, s) && At(s, k, AtStream)
    ensures Inv(u, StreamEnd(s, k, eof))
  {
    hide Inv;
    WorkFacts(u, s, k);
    var w := s.spec.works[k];
    hide Inv, WorkOk, ValidWork, Ended;
    LeaveOk(u, s, k);
    WaitingWork(u, w, [], s.books.gen, s.generation.request);
    UpdateOk(u, s, k, w.(terminal := Some(eof), phase := Leaving));
  }

  lemma RetryOk(u: Setup, s: Session, k: nat)
    requires Inv(u, s) && k < |s.spec.works| && s.spec.works[k].phase.Holding?
    ensures Inv(u, Retry(u, s, k))
  {
    hide Inv, Offer, ValidWork, Leave;
    LeaveOk(u, s, k);
    OfferOk(u, s, k, s.spec.works[k].phase.text);
  }

  lemma GoneWork(u: Setup, w: Work, gen: string, request: seq<C.Message>)
    requires WorkOk(u, w, gen, request)
    ensures WorkOk(u, w.(phase := Gone), gen, request)
  {}

  lemma WorkerGoneOk(u: Setup, s: Session, k: nat)
    requires Inv(u, s) && At(s, k, Leaving)
    ensures Inv(u, WorkerGone(s, k))
  {
    hide P.BooksOk, InputOk, AudioOk, CommitsOk, PauseOk, ResponseOk, IssuedOk, TurnsOk, TurnLogOk, WorkOk, PromotedOk;
    OnlyWorker(u, s, k);
    GoneWork(u, s.spec.works[k], s.books.gen, s.generation.request);
    UpdateOk(u, s, k, s.spec.works[k].(phase := Gone));
  }

  lemma OnlyWorker(u: Setup, s: Session, k: nat)
    requires Inv(u, s) && k < |s.spec.works| && s.spec.works[k].phase != Gone
    ensures k == |s.spec.works| - 1 && forall j | 0 <= j < k :: s.spec.works[j].phase == Gone
  {}

  lemma WorkTimeoutOk(u: Setup, s: Session, k: nat)
    requires Inv(u, s) && k < |s.spec.works|
    ensures Inv(u, WorkTimeout(s, k))
  {
    hide Inv;
    WorkFacts(u, s, k);
    hide Inv;
    if s.spec.works[k].state != Promoted {
      EndedOk(u, s.spec.works[k], Cancelled, s.books.gen, s.generation.request);
      SetWorkOk(u, s, k, Ended(s.spec.works[k], Cancelled));
    }
  }

  // --- the adopted stream -----------------------------------------------------

  lemma {:induction false} TotalHead(deltas: seq<C.Text>)
    requires deltas != []
    ensures Total(deltas) == |deltas[0]| + Total(deltas[1..])
  {
    var n := |deltas| - 1;
    if n > 0 {
      TotalHead(deltas[..n]);
      assert deltas[..n][1..] == deltas[1..][..n - 1];
    }
  }

  function Taken(w: Work): Work
    requires w.deltas != []
  {
    w.(deltas := w.deltas[1..], bytes := if w.bytes >= |w.deltas[0]| then w.bytes - |w.deltas[0]| else 0,
       delivered := w.delivered + [w.deltas[0]])
  }

  lemma TakenOk(u: Setup, w: Work, gen: string, request: seq<C.Message>)
    requires WorkOk(u, w, gen, request) && w.adopted && w.live && w.deltas != []
    ensures WorkOk(u, Taken(w), gen, request)
  {
    TotalHead(w.deltas);
    assert w.delivered + w.deltas == (w.delivered + [w.deltas[0]]) + w.deltas[1..];
  }

  // Reading takes the oldest delta, in order, and frees exactly its bytes.
  lemma ReadDeltaOk(u: Setup, s: Session, k: nat)
    requires Inv(u, s) && k < |s.spec.works|
    ensures Inv(u, ReadDelta(s, k))
  {
    hide Inv, WorkOk;
    WorkFacts(u, s, k);
    var w := s.spec.works[k];
    if w.adopted && w.live && w.deltas != [] {
      TakenOk(u, w, s.books.gen, s.generation.request);
      SetWorkOk(u, s, k, Taken(w));
    }
  }

  lemma CloseStreamOk(u: Setup, s: Session, k: nat)
    requires Inv(u, s) && k < |s.spec.works|
    ensures Inv(u, CloseStream(s, k)) && Inv(u, GenerationGone(s, k))
  {
    hide Inv;
    WorkFacts(u, s, k);
    var w := s.spec.works[k];
    hide Inv;
    SetWorkOk(u, s, k, w.(live := false, deltas := [], bytes := 0, result := None));
    SetWorkOk(u, s, k, w.(live := false));
  }

  // --- promotion --------------------------------------------------------------

  lemma PromotedEntry(log: seq<Entry>, works: seq<Work>, e: Entry)
    requires PromotedOk(log, works) && e.WorkPromoted? && e.work < |works| && works[e.work].committed
    requires Published(log, e.ctx, works[e.work].key)
    requires forall i | 0 <= i < |log| :: log[i] != ResponseDropped(e.ctx)
    ensures PromotedOk(log + [e], works)
  {
    var all := log + [e];
    var i :| 0 <= i < |log| && PublishedAt(log, i, e.ctx, works[e.work].key);
    assert PublishedAt(all, i, e.ctx, works[e.work].key);
    forall j | 0 <= j < |all| && all[j].WorkPromoted?
      ensures all[j].work < |works| && works[all[j].work].committed && Crossed(all, j, works[all[j].work].key)
    {
      if j < |log| {
        assert Crossed(log, j, works[log[j].work].key);
        var m :| 0 <= m < j && PublishedAt(log, m, log[j].ctx, works[log[j].work].key);
        assert PublishedAt(all, m, all[j].ctx, works[all[j].work].key);
      }
    }
  }

  lemma LiveUndropped(s: Session)
    requires ResponseOk(s.response, s.contexts, s.log) && s.response.live
    ensures forall i | 0 <= i < |s.log| :: s.log[i] != ResponseDropped(s.response.ctx)
  {}

  lemma PromotionNoted(u: Setup, s: Session, k: nat, ctx: nat, gen: string)
    requires Inv(u, s) && k < |s.spec.works| && s.spec.works[k].committed
    requires Published(s.log, ctx, s.spec.works[k].key)
    requires forall i | 0 <= i < |s.log| :: s.log[i] != ResponseDropped(ctx)
    ensures Inv(u, Note(s, WorkPromoted(k, ctx, gen)))
  {
    hide P.BooksOk, InputOk, AudioOk, CommitsOk, PauseOk, ResponseOk, IssuedOk, TurnsOk, TurnLogOk, SpecOk, PromotedOk,
         Published;
    var e := WorkPromoted(k, ctx, gen);
    CommitsAppend(s.log, s.stream, s.listen, e);
    ResponseAppend(s.response, s.contexts, s.log, e);
    TurnLogAppend(s.log, s.ids, s.spent, s.input.turn, s.input.state, e);
    PromotedEntry(s.log, s.spec.works, e);
  }

  lemma PublishedLater(log: seq<Entry>, e: Entry, ctx: nat, key: Key)
    requires Published(log, ctx, key)
    ensures Published(log + [e], ctx, key)
  {
    var i :| 0 <= i < |log| && PublishedAt(log, i, ctx, key);
    assert PublishedAt(log + [e], i, ctx, key);
  }

  // A silent turn is consumed without a generation.
  lemma AdoptSilent(u: Setup, s: Session, k: nat, ctx: nat)
    requires Inv(u, s) && k < |s.spec.works| && Usable(s, ctx) && s.spec.works[k].committed && s.spec.works[k].ready
    requires !s.spec.works[k].adopted
    requires Published(s.log, ctx, s.spec.works[k].key)
    ensures Inv(u, Note(SetWork(s.(response := s.response.(used := true)), k,
                                s.spec.works[k].(state := Promoted, generation := "")), WorkPromoted(k, ctx, "")))
  {
    WorkFacts(u, s, k);
    LiveUndropped(s);
    var w := s.spec.works[k].(state := Promoted, generation := "");
    assert WorkOk(u, w, s.books.gen, s.generation.request);
    hide Inv, WorkOk, Published;
    UsedOk(u, s);
    var d := s.(response := s.response.(used := true));
    SetWorkOk(u, d, k, w);
    PromotionNoted(u, SetWork(d, k, w), k, ctx, "");
  }

  // The work of an accepted response.
  function Adopted(w: Work, gen: string, request: seq<C.Message>): Work {
    var v := w.(state := Promoted, generation := gen, adopted := w.request == request);
    if w.request == request then v else v.(live := false, deltas := [], bytes := 0)
  }

  // The adopted stream was asked with exactly the official request, or is dropped.
  lemma AdoptedWork(u: Setup, w: Work, old0: string, asked: seq<C.Message>, gen: string, request: seq<C.Message>)
    requires WorkOk(u, w, old0, asked) && w.committed && w.ready && !w.adopted && gen != "" && w.delivered == []
    ensures WorkOk(u, Adopted(w, gen, request), gen, request)
  {}

  lemma AdoptedKeeps(w: Work, gen: string, request: seq<C.Message>)
    ensures var x := Adopted(w, gen, request);
            x.key == w.key && x.committed == w.committed && x.phase == w.phase && x.generation == gen
  {}

  lemma AdoptAnswer(u: Setup, s: Session, d: Session, k: nat, ctx: nat, gen: string)
    requires Inv(u, s) && Usable(s, ctx) && k < |s.spec.works| && s.spec.works[k].committed && s.spec.works[k].ready
    requires !s.spec.works[k].adopted && gen != ""
    requires Published(s.log, ctx, s.spec.works[k].key)
    requires Inv(u, d) && d.spec == s.spec && d.books.gen == gen && gen in d.ids
    requires d.log == s.log + [GenerationBegun(ctx, s.response.turn, gen)]
    ensures Inv(u, Note(SetWork(d, k, Adopted(s.spec.works[k], gen, d.generation.request)), WorkPromoted(k, ctx, gen)))
  {
    hide P.Core, SpecOk;
    WorkFacts(u, s, k);
    LiveUndropped(s);
    assert forall i | 0 <= i < |d.log| :: d.log[i] != ResponseDropped(ctx);
    hide Inv, Published, Adopted;
    PublishedLater(s.log, GenerationBegun(ctx, s.response.turn, gen), ctx, s.spec.works[k].key);
    AdoptedWork(u, s.spec.works[k], s.books.gen, s.generation.request, gen, d.generation.request);
    AdoptedKeeps(s.spec.works[k], gen, d.generation.request);
    hide WorkOk;
    var x := Adopted(s.spec.works[k], gen, d.generation.request);
    SetWorkOk(u, d, k, x);
    PromotionNoted(u, SetWork(d, k, x), k, ctx, gen);
  }

  lemma Unadopted(u: Setup, s: Session, k: nat)
    requires Inv(u, s) && k < |s.spec.works| && s.spec.works[k].state != Promoted
    ensures !s.spec.works[k].adopted
  {}

  lemma UnusedNamed(s: Session, id: string)
    requires Unused(s, id)
    ensures id != ""
  {
  }

  lemma AdoptOk(u: Setup, s: Session, k: nat, ctx: nat, user: string, item: string, gen: string)
    requires Inv(u, s) && k < |s.spec.works| && Usable(s, ctx) && s.spec.works[k].result.Some?
    requires s.spec.works[k].committed && s.spec.works[k].ready && s.spec.works[k].state != Promoted
    requires Published(s.log, ctx, s.spec.works[k].key)
    requires Unused(s, user) && Unused(s, item) && Unused(s, gen) && user != gen
    ensures s.books.items != [] && Inv(u, Adopt(u, s, k, ctx, user, item, gen))
  {
    hide Inv, WorkOk, Published, BeginResponse, Usable, SetWork, Begins, Ended, Unused;
    UnusedNamed(s, gen);
    WorkFacts(u, s, k);
    Unadopted(u, s, k);
    var w := s.spec.works[k];
    if w.result.value == [] {
      AdoptSilent(u, s, k, ctx);
    } else {
      BeginResponseOk(u, s, ctx, w.result.value, false, user, item, gen);
      var d := BeginResponse(u, s, ctx, w.result.value, false, user, item, gen);
      assert d.(spec := s.spec) == d;
      if Begins(u, s, ctx, w.result.value, user) { AdoptAnswer(u, s, d, k, ctx, gen); } else { WorkEnds(u, d, k); }
    }
  }

  // What the promotion loop checks is enough: the work was published with this context.
  lemma HeldPublished(s: Session)
    requires HeldOk(s) && Held(s.spec) && s.response.live
    ensures Published(s.log, s.response.ctx, s.spec.works[s.spec.current.value].key)
  {}

  lemma PromoteOk(u: Setup, s: Session, ctx: nat, key: Key, user: string, item: string, gen: string, now: int)
    requires Inv(u, s) && HeldOk(s)
    requires Unused(s, user) && Unused(s, item) && Unused(s, gen) && user != gen
    ensures s.books.items != [] && Inv(u, Promote(u, s, ctx, key, user, item, gen, now))
  {
    hide B.Shape;
    assert s.books.items != [];
    hide Inv, HeldOk, Published, Adopt, Ended, SetWork;
    if u.speculation && Usable(s, ctx) && s.spec.current.Some? && s.spec.current.value < |s.spec.works| {
      var k := s.spec.current.value;
      var w := s.spec.works[k];
      if w.key == key && w.committed && w.state != Promoted && ValidWork(s, k) {
        if now >= w.started + u.timeout {
          WorkEnds(u, s, k);
        } else if w.ready && w.result.Some? {
          HeldPublished(s);
          AdoptOk(u, s, k, ctx, user, item, gen);
        }
      }
    }
  }

  lemma WorkEnds(u: Setup, s: Session, k: nat)
    requires Inv(u, s) && k < |s.spec.works| && s.spec.works[k].state != Promoted
    ensures Inv(u, SetWork(s, k, Ended(s.spec.works[k], Cancelled)))
  {
    WorkFacts(u, s, k);
    hide Inv;
    EndedOk(u, s.spec.works[k], Cancelled, s.books.gen, s.generation.request);
    SetWorkOk(u, s, k, Ended(s.spec.works[k], Cancelled));
  }
}
