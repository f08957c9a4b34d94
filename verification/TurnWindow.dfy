// The window and the positions over whole runs of a session: what was granted is
// accounted for, what was played never goes back, and an acknowledgement that
// overtakes the record of its write is not lost.
module TurnWindow {
  import opened Arithmetic
  import opened Options
  import F = Flow
  import C = ConversationModel
  import P = Playback
  import R = PlaybackRace
  import opened TurnModel
  import opened TurnInvariant
  import opened TurnEvents
  import opened TurnHeld
  import opened TurnWriters
  import opened TurnRuns

  // --- positions never go back ------------------------------------------------

  lemma TryForward(u: Setup, s: Session, e: Event)
    requires Sound(u, s)
    ensures Forward(s, Try(u, s, e))
  {
    hide Inv, HeldOk, Forward, Next, Enabled, Sound;
    if Enabled(s, e) {
      EnabledRuns(u, s, e);
      NextOk(u, s, e);
      if e.CloseEvent? { ClosesForward(s); } else { NextWriters(u, s, e); }
    } else {
      StaysForward(s);
    }
  }

  lemma ClosesForward(s: Session)
    ensures Forward(s, Close(s))
  {
  }

  lemma StaysForward(s: Session)
    ensures Forward(s, s)
  {
  }

  lemma CurrentIssued(u: Setup, s: Session)
    requires Sound(u, s)
    ensures s.books.gen != "" ==> s.books.gen in s.ids
  {
    hide Inv, HeldOk;
  }

  lemma {:induction false} ExecuteForward(u: Setup, s: Session, events: seq<Event>)
    requires Sound(u, s)
    ensures Forward(s, Execute(u, s, events))
    decreases |events|
  {
    hide Sound, Forward, Try;
    if events == [] {
      StaysForward(s);
    } else {
      var d := Try(u, s, events[0]);
      TryForward(u, s, events[0]);
      ExecuteForward(u, d, events[1..]);
      CurrentIssued(u, s);
      ForwardTwice(s, d, Execute(u, d, events[1..]));
    }
  }

  lemma {:induction false} ExecuteConcat(u: Setup, s: Session, a: seq<Event>, b: seq<Event>)
    requires Sound(u, s)
    ensures Execute(u, s, a + b) == Execute(u, Execute(u, s, a), b)
    decreases |a|
  {
    hide Sound, Try;
    if a == [] {
      assert a + b == b;
    } else {
      assert (a + b)[1..] == a[1..] + b;
      ExecuteConcat(u, Try(u, s, a[0]), a[1..], b);
    }
  }

  // Whatever happens between two moments of the same generation, nothing that was
  // generated, sent, reserved, received or played goes back.
  lemma PositionsAdvance(u: Setup, item: string, events: seq<Event>, more: seq<Event>)
    requires C.ValidConfig(u.conversation) && item != ""
    requires Reach(u, item, events).books.gen == Reach(u, item, events + more).books.gen != ""
    ensures Grows(Reach(u, item, events).books, Reach(u, item, events + more).books)
  {
    hide Sound, Execute, Grows;
    InitialOk(u, item);
    LiveSound(u, Initial(u, item));
    ExecuteConcat(u, Initial(u, item), events, more);
    ExecuteForward(u, Reach(u, item, events), more);
  }

  lemma LiveSound(u: Setup, s: Session)
    requires LiveInv(u, s)
    ensures Sound(u, s)
  {
  }

  // --- the window is accounted for --------------------------------------------

  // What the window of the current generation granted is recorded as sent or still
  // to be recorded, and nothing is sent without it: no more than thirty seconds
  // are ever ahead of what was reported played.
  ghost predicate Accounted(s: Session) {
    s.books.gen != "" && s.books.timeline.Some? ==>
      var t := s.books.timeline.value;
      if s.books.flow.None? then t.sent == 0
      else
        var f := s.books.flow.value;
        && s.granted >= 0 && t.sent + s.granted == f.reserved
        && 0 <= f.played <= f.received <= f.reserved && t.sent <= f.reserved <= f.played + 30 * f.rate
        && Min(f.played, t.sent) <= t.played <= t.sent
  }

  lemma WindowAccounted(u: Setup, item: string, events: seq<Event>)
    requires C.ValidConfig(u.conversation) && item != ""
    ensures Accounted(Reach(u, item, events))
  {
    hide Reach, Inv, WritersOk, HeldOk, Accounted;
    var s := Reach(u, item, events);
    var p := Before(u, s);
    LiveAccounted(u, p);
    ClosedAccounted(p);
  }

  lemma LiveAccounted(u: Setup, s: Session)
    requires LiveInv(u, s)
    ensures Accounted(s)
  {
    assert P.BooksOk(u.conversation, s.books) && Conserved(s.books, s.granted);
    hide Inv, HeldOk;
  }

  lemma ClosedAccounted(s: Session)
    requires Accounted(s)
    ensures Accounted(Close(s))
  {
  }

  // --- an acknowledgement and the record of its write -------------------------

  lemma BooksTry(u: Setup, s: Session, e: BookEvent)
    requires Sound(u, s) && !s.closed
    ensures s.books.items != []
    ensures Try(u, s, BooksEvent(e)) == if Writes(s, e) then KeepBooks(u, s, e) else s
  {
    BooksThere(u, s);
    hide Sound, KeepBooks, Writes, Next, PlaybackNext;
    BooksEnabled(s, e);
    if Writes(s, e) {
      NextParts(u, s, BooksEvent(e));
      BooksNext(u, s, e);
    }
  }

  lemma BooksThere(u: Setup, s: Session)
    requires Sound(u, s) && !s.closed
    ensures s.books.items != [] && LiveInv(u, s)
  {
    OpenRuns(u, s);
    assert P.BooksOk(u.conversation, s.books);
  }

  lemma BooksEnabled(s: Session, e: BookEvent)
    requires !s.closed
    ensures Enabled(s, BooksEvent(e)) <==> Writes(s, e)
  {
    hide Writes;
  }

  lemma BooksNext(u: Setup, s: Session, e: BookEvent)
    requires Enabled(s, BooksEvent(e)) && s.books.items != []
    ensures PlaybackNext(u, s, BooksEvent(e)) == KeepBooks(u, s, e)
  {
    hide Enabled, KeepBooks;
  }

  lemma CreditKeeps(u: Setup, s: Session, id: string, credit: F.Credit)
    requires s.books.items != []
    ensures var d := KeepBooks(u, s, CreditEvent(id, credit));
      && d == s.(books := P.UpdateCredit(s.books, id, credit).0) && d.books.gen == s.books.gen
      && d.books.live == s.books.live && d.books.timeline.Some? == s.books.timeline.Some?
      && d.books.flow.Some? == s.books.flow.Some?
  {
    hide C.Progress;
  }

  lemma SentKeeps(u: Setup, s: Session, id: string, frames: int)
    requires s.books.items != []
    ensures var d := KeepBooks(u, s, SentEvent(id, frames));
      && d == s.(books := P.RecordSent(s.books, id, frames), left := d.left, granted := d.granted)
      && d.left == (if id in s.left then s.left[id := s.left[id] - Max(frames, 0)] else s.left)
      && d.granted == s.granted
                    - (if P.Active(s.books, id) && s.books.timeline.Some? then Max(frames, 0) else 0)
  {
    hide P.RecordSent;
  }

  // Books of different generations do not meet.
  lemma BooksCommute(u: Setup, s: Session, id: string, credit: F.Credit, other: string, frames: int)
    requires LiveInv(u, s) && Writes(s, SentEvent(other, frames))
    ensures P.RecordSent(P.UpdateCredit(s.books, id, credit).0, other, frames)
            == P.UpdateCredit(P.RecordSent(s.books, other, frames), id, credit).0
  {
    assert P.BooksOk(u.conversation, s.books);
    WritesHonest(s, SentEvent(other, frames));
    hide Inv, HeldOk, WritersOk, P.BooksOk;
    if id == other {
      R.CreditRecordCommute(u.conversation, s.books, id, credit, frames);
    } else {
      hide P.Sync;
    }
  }

  lemma WritesStill(s: Session, d: Session, e: BookEvent)
    requires d.left == s.left && d.granted == s.granted && d.books.gen == s.books.gen && d.books.live == s.books.live
    requires d.books.timeline.Some? == s.books.timeline.Some? && d.books.flow.Some? == s.books.flow.Some?
    ensures Writes(d, e) <==> Writes(s, e)
  {
  }

  lemma KeepCommute(u: Setup, s: Session, id: string, credit: F.Credit, other: string, frames: int)
    requires LiveInv(u, s) && s.books.items != [] && Writes(s, SentEvent(other, frames))
    ensures KeepBooks(u, s, CreditEvent(id, credit)).books.items != []
    ensures KeepBooks(u, s, SentEvent(other, frames)).books.items != []
    ensures KeepBooks(u, KeepBooks(u, s, CreditEvent(id, credit)), SentEvent(other, frames))
            == KeepBooks(u, KeepBooks(u, s, SentEvent(other, frames)), CreditEvent(id, credit))
  {
    hide LiveInv, KeepBooks, Writes, P.UpdateCredit, P.RecordSent;
    BooksCommute(u, s, id, credit, other, frames);
    CreditStays(u, s, id, credit);
    SentStays(u, s, other, frames);
    var a, b := KeepBooks(u, s, CreditEvent(id, credit)), KeepBooks(u, s, SentEvent(other, frames));
    CreditKeeps(u, s, id, credit);
    SentKeeps(u, s, other, frames);
    SentKeeps(u, a, other, frames);
    CreditKeeps(u, b, id, credit);
  }

  lemma CreditStays(u: Setup, s: Session, id: string, credit: F.Credit)
    requires LiveInv(u, s) && s.books.items != []
    ensures KeepBooks(u, s, CreditEvent(id, credit)).books.items != []
  {
    KeepWriters(u, s, CreditEvent(id, credit));
    hide LiveInv;
    BookEventOk(u, s, CreditEvent(id, credit));
  }

  lemma SentStays(u: Setup, s: Session, id: string, frames: int)
    requires LiveInv(u, s) && s.books.items != [] && Writes(s, SentEvent(id, frames))
    ensures KeepBooks(u, s, SentEvent(id, frames)).books.items != []
  {
    WritesHonest(s, SentEvent(id, frames));
    hide LiveInv;
    BookEventOk(u, s, SentEvent(id, frames));
  }

  // The order of a credit snapshot and the record of any write, of any generations,
  // leaves no trace in the session: a client that has played a packet before it was
  // recorded as sent loses nothing.
  lemma RaceLeavesNoTrace(u: Setup, item: string, events: seq<Event>, id: string, credit: F.Credit, other: string,
      frames: int)
    requires C.ValidConfig(u.conversation) && item != ""
    ensures var a, b := BooksEvent(CreditEvent(id, credit)), BooksEvent(SentEvent(other, frames));
      Reach(u, item, events + [a, b]) == Reach(u, item, events + [b, a])
  {
    hide Inv, HeldOk, WritersOk, Execute;
    var a, b := BooksEvent(CreditEvent(id, credit)), BooksEvent(SentEvent(other, frames));
    InitialOk(u, item);
    ExecuteConcat(u, Initial(u, item), events, [a, b]);
    ExecuteConcat(u, Initial(u, item), events, [b, a]);
    var s := Reach(u, item, events);
    ExecuteTwo(u, s, a, b);
    ExecuteTwo(u, s, b, a);
    TryCommute(u, s, id, credit, other, frames);
  }

  lemma ExecuteTwo(u: Setup, s: Session, a: Event, b: Event)
    requires Sound(u, s)
    ensures Execute(u, s, [a, b]) == Try(u, Try(u, s, a), b)
  {
    hide Sound, Try;
    assert [a, b][1..] == [b] && [b][1..] == [];
    assert Execute(u, Try(u, s, a), [b]) == Execute(u, Try(u, Try(u, s, a), b), []);
  }

  lemma TryCommute(u: Setup, s: Session, id: string, credit: F.Credit, other: string, frames: int)
    requires Sound(u, s)
    ensures var a, b := BooksEvent(CreditEvent(id, credit)), BooksEvent(SentEvent(other, frames));
      Try(u, Try(u, s, a), b) == Try(u, Try(u, s, b), a)
  {
    hide Sound, KeepBooks, Next, Try, Keep;
    if s.closed {
      ClosedTry(u, s, BooksEvent(CreditEvent(id, credit)));
      ClosedTry(u, s, BooksEvent(SentEvent(other, frames)));
    } else {
      var e, f := CreditEvent(id, credit), SentEvent(other, frames);
      BooksThere(u, s);
      BooksTry(u, s, e);
      BooksTry(u, s, f);
      CreditKeeps(u, s, id, credit);
      SentKeeps(u, s, other, frames);
      BooksTry(u, KeepBooks(u, s, e), f);
      WritesStill(s, KeepBooks(u, s, e), f);
      if Writes(s, f) {
        BooksTry(u, KeepBooks(u, s, f), e);
        KeepCommute(u, s, id, credit, other, frames);
      }
    }
  }

  lemma ClosedTry(u: Setup, s: Session, e: Event)
    requires Sound(u, s) && s.closed
    ensures Try(u, s, e) == s
  {
    hide Sound, Next;
  }

  // --- and the race does happen -----------------------------------------------

  // A negotiated generation with one chunk of `frames` frames, nothing recorded yet.
  ghost predicate Racing(s: Session, rate: int, frames: int, flow: Option<F.FlowState>, granted: int) {
    && !s.closed && s.books.gen == "g" && s.books.live
    && s.books.timeline == Some(P.Timeline("g", rate, 1, frames, 0, 0, false, 0))
    && s.books.flow == flow && s.books.creditRequired && s.granted == granted && Unsent(s.left, "g") == frames
  }

  function Window(rate: nat, capacity: int, reserved: int, received: int, played: int): F.FlowState {
    F.FlowState(rate, capacity, reserved, received, played, true)
  }

  lemma RaceOpens(u: Setup, item: string)
    requires C.ValidConfig(u.conversation) && item !in {"", "t", "a", "g"}
    ensures LiveInv(u, Initial(u, item)) && Sound(u, Initial(u, item))
    ensures var s := Try(u, Initial(u, item), BooksEvent(RequireEvent));
      s == Initial(u, item).(books := Initial(u, item).books.(creditRequired := true))
  {
    hide Inv, HeldOk, KeepBooks, Try;
    InitialOk(u, item);
    LiveSound(u, Initial(u, item));
    BooksTry(u, Initial(u, item), RequireEvent);
    RequireKeeps(u, Initial(u, item));
  }

  lemma RequireKeeps(u: Setup, s: Session)
    requires s.books.items != [] && s.books.gen == ""
    ensures KeepBooks(u, s, RequireEvent) == s.(books := s.books.(creditRequired := true))
  {
  }

  lemma StartNext(u: Setup, s: Session)
    requires LiveInv(u, s) && s.books.items != [] && !s.closed && s.books.gen == "" && Distinct3(s, "t", "a", "g")
    ensures var e := StartGenerationEvent("t", false, "a", "g"); var d := StartGeneration(u, s, "t", false, "a", "g");
      Enabled(s, e) && Next(u, s, e) == d && Try(u, s, e) == d
  {
    hide Inv, HeldOk, StartGeneration;
    NextParts(u, s, StartGenerationEvent("t", false, "a", "g"));
  }

  function Asked(u: Setup, item: string): P.Books {
    P.Books([C.SystemItem(u.conversation, item)], "", false, None, None, true)
  }

  function Answering(u: Setup, item: string): P.Books {
    P.Books([C.SystemItem(u.conversation, item), C.AssistantItem("a", "t", "g", false)], "g", true,
            Some(P.NewTimeline("g")), None, true)
  }

  lemma BeginsAnswer(u: Setup, item: string)
    ensures P.BeginGeneration(u.conversation, Asked(u, item), "a", "t", "g", false) == Answering(u, item)
  {
    var c, b := u.conversation, Asked(u, item);
    assert P.FinalizeCurrent(b) == b;
    var items := b.items + [C.AssistantItem("a", "t", "g", false)];
    assert items == Answering(u, item).items;
    assert C.TrimPoint(c, items, "t", 1) == 1;
    assert C.Kept(items, 1) == items;
  }

  lemma RaceStarts(u: Setup, item: string)
    requires C.ValidConfig(u.conversation) && item !in {"", "t", "a", "g"}
    ensures LiveInv(u, Initial(u, item)) && Sound(u, Initial(u, item))
    ensures var s := Initial(u, item).(books := Asked(u, item));
      && Try(u, Initial(u, item), BooksEvent(RequireEvent)) == s && Sound(u, s)
      && var d := Try(u, s, StartGenerationEvent("t", false, "a", "g"));
         d.books == Answering(u, item) && !d.closed && d.left == map[] && d.granted == 0
  {
    RaceOpens(u, item);
    var s := Initial(u, item).(books := Asked(u, item));
    BooksThere(u, s);
    hide Inv, HeldOk, Try, StartGeneration, Answering, P.BeginGeneration;
    StartNext(u, s);
    StartsBare(u, s);
    BeginsAnswer(u, item);
  }

  lemma StartsBare(u: Setup, s: Session)
    requires s.books.items != [] && !s.closed && s.spec.current.None? && !s.response.cancellable
    ensures var d := StartGeneration(u, s, "t", false, "a", "g");
      && d.books == P.BeginGeneration(u.conversation, s.books, "a", "t", "g", false)
      && !d.closed && d.left == s.left && d.granted == s.granted
  {
    hide P.BeginGeneration;
  }

  lemma Registers(u: Setup, item: string, text: C.Text, rate: int, frames: int)
    requires C.ValidConfig(u.conversation) && |text| <= u.conversation.maxItemBytes && rate > 0 && frames > 0
    ensures var r := P.RegisterSpeech(u.conversation, Answering(u, item), "g", 0, text, rate, 1, frames);
      && r.1 == P.Done && r.0.timeline == Some(P.Timeline("g", rate, 1, frames, 0, 0, false, 0))
      && r.0.gen == "g" && r.0.live && r.0.flow == None && r.0.creditRequired && r.0.items != []
  {
    var c, b := u.conversation, Answering(u, item);
    assert C.FindAssistant(b.items, "g", 0) == 1;
    var r := C.WithChunk(c, b.items[1], 0, text, 0, frames);
    assert C.ChunkBytes([]) == 0;
    assert r.1 == C.Accepted;
    hide C.WithChunk, C.Trim;
  }

  lemma RaceRegisters(u: Setup, item: string, s: Session, text: C.Text, rate: int, frames: int)
    requires C.ValidConfig(u.conversation) && |text| <= u.conversation.maxItemBytes && rate > 0 && frames > 0
    requires s.books == Answering(u, item) && !s.closed && s.left == map[] && s.granted == 0
    ensures var d := KeepBooks(u, s, RegisterEvent("g", 0, text, rate, 1, frames)); Racing(d, rate, frames, None, 0)
  {
    Registers(u, item, text, rate, frames);
    hide P.RegisterSpeech;
  }

  lemma RaceFlows(u: Setup, s: Session, rate: int, frames: int)
    requires Racing(s, rate, frames, None, 0) && s.books.items != [] && F.SupportedRate(rate)
    ensures var d := KeepBooks(u, s, FlowEvent("g", rate)); Racing(d, rate, frames, Some(Window(rate, 0, 0, 0, 0)), 0)
  {
  }

  // Any acceptable snapshot before the record: the window learns, the timeline waits.
  lemma RaceCredits(u: Setup, s: Session, rate: nat, frames: int, f: F.FlowState, capacity: int, received: int,
      played: int, granted: int)
    requires Racing(s, rate, frames, Some(f), granted) && s.books.items != [] && f.explicit && f.rate == rate
    requires rate / 10 <= capacity <= rate * 30 && f.received <= received <= f.reserved
    requires 0 <= f.played <= played <= received
    ensures var d := KeepBooks(u, s, CreditEvent("g", F.Credit(capacity, received, played, received - played)));
      Racing(d, rate, frames, Some(Window(rate, capacity, f.reserved, received, played)), granted)
  {
    hide C.Progress;
  }

  lemma RaceReserves(u: Setup, s: Session, rate: nat, frames: int, capacity: int)
    requires Racing(s, rate, frames, Some(Window(rate, capacity, 0, 0, 0)), 0) && s.books.items != []
    requires 0 < frames <= capacity
    ensures var d := KeepBooks(u, s, ReserveEvent(frames));
      Racing(d, rate, frames, Some(Window(rate, capacity, frames, 0, 0)), frames)
  {
  }

  lemma RaceRecords(u: Setup, s: Session, rate: nat, frames: int, capacity: int, played: int)
    requires Racing(s, rate, frames, Some(Window(rate, capacity, frames, frames, played)), frames)
             && s.books.items != []
    requires 0 < played <= frames
    ensures Writes(s, SentEvent("g", frames))
    ensures var d := KeepBooks(u, s, SentEvent("g", frames));
      d.books.timeline == Some(P.Timeline("g", rate, 1, frames, frames, played, false, 0))
  {
    hide C.Progress;
  }

  lemma ExecuteLast(u: Setup, s: Session, events: seq<Event>, e: Event)
    requires Sound(u, s)
    ensures Execute(u, s, events + [e]) == Try(u, Execute(u, s, events), e)
  {
    hide Sound, Try, Execute;
    ExecuteConcat(u, s, events, [e]);
    ExecuteOne(u, Execute(u, s, events), e);
  }

  lemma ExecuteOne(u: Setup, s: Session, e: Event)
    requires Sound(u, s)
    ensures Execute(u, s, [e]) == Try(u, s, e)
  {
    hide Sound, Try;
    assert [e][1..] == [];
    assert Execute(u, Try(u, s, e), []) == Try(u, s, e);
  }

  // One more event of the books at the end of a run.
  lemma ReachBooks(u: Setup, item: string, events: seq<Event>, e: BookEvent)
    requires C.ValidConfig(u.conversation) && item != "" && !Reach(u, item, events).closed
    ensures var s := Reach(u, item, events);
      && s.books.items != []
      && Reach(u, item, events + [BooksEvent(e)]) == if Writes(s, e) then KeepBooks(u, s, e) else s
  {
    hide Inv, HeldOk, Execute, Writes, KeepBooks, Try, Sound;
    InitialOk(u, item);
    LiveSound(u, Initial(u, item));
    ExecuteLast(u, Initial(u, item), events, BooksEvent(e));
    BooksTry(u, Reach(u, item, events), e);
  }

  lemma RaceBegins(u: Setup, item: string, text: C.Text, rate: nat, frames: int) returns (events: seq<Event>)
    requires C.ValidConfig(u.conversation) && item !in {"", "t", "a", "g"} && |text| <= u.conversation.maxItemBytes
    requires F.SupportedRate(rate) && frames > 0
    ensures Racing(Reach(u, item, events), rate, frames, Some(Window(rate, 0, 0, 0, 0)), 0)
  {
    hide Inv, HeldOk, Execute, KeepBooks, Try, Sound, Racing, Reach;
    RaceStarts(u, item);
    var require, start := BooksEvent(RequireEvent), StartGenerationEvent("t", false, "a", "g");
    ReachStarts(u, item, require, start);
    events := [require, start];
    var s := Reach(u, item, events);
    var register := RegisterEvent("g", 0, text, rate, 1, frames);
    ReachBooks(u, item, events, register);
    RaceRegisters(u, item, s, text, rate, frames);
    events := events + [BooksEvent(register)];
    var t := Reach(u, item, events);
    RacingOpen(t, rate, frames, None, 0);
    ReachBooks(u, item, events, FlowEvent("g", rate));
    RaceFlows(u, t, rate, frames);
    events := events + [BooksEvent(FlowEvent("g", rate))];
  }

  lemma RacingOpen(s: Session, rate: int, frames: int, flow: Option<F.FlowState>, granted: int)
    requires Racing(s, rate, frames, flow, granted)
    ensures !s.closed
  {
  }

  lemma ReachStarts(u: Setup, item: string, a: Event, b: Event)
    requires C.ValidConfig(u.conversation) && item != "" && Sound(u, Initial(u, item))
    ensures Reach(u, item, [a, b]) == Try(u, Try(u, Initial(u, item), a), b)
  {
    hide Sound, Try;
    ExecuteTwo(u, Initial(u, item), a, b);
  }

  // Negotiated credit, one chunk, a first snapshot, a reservation: the client has
  // played what it was sent before the server has recorded the write. The window
  // knows it, the timeline waits; with the record it is there.
  lemma RaceHappens(u: Setup, item: string, text: C.Text, rate: nat, frames: int, capacity: int, played: int)
    returns (events: seq<Event>)
    requires C.ValidConfig(u.conversation) && item !in {"", "t", "a", "g"} && |text| <= u.conversation.maxItemBytes
    requires F.SupportedRate(rate) && rate / 10 <= capacity <= rate * 30 && 0 < played <= frames <= capacity
    ensures var s := Reach(u, item, events);
      && Racing(s, rate, frames, Some(Window(rate, capacity, frames, frames, played)), frames)
      && s.books.flow.value.played == played > s.books.timeline.value.sent == s.books.timeline.value.played == 0
    ensures var t := Reach(u, item, events + [BooksEvent(SentEvent("g", frames))]).books.timeline;
      t.Some? && t.value.sent == frames && t.value.played == played
  {
    hide Inv, HeldOk, KeepBooks, Sound, Reach, Writes, Racing;
    events := RaceBegins(u, item, text, rate, frames);
    var first := CreditEvent("g", F.Credit(capacity, 0, 0, 0));
    events := RaceEvent(u, item, events, rate, frames, Some(Window(rate, 0, 0, 0, 0)), 0, first);
    RaceCredits(u, Reach(u, item, events[..|events| - 1]), rate, frames, Window(rate, 0, 0, 0, 0), capacity, 0, 0, 0);
    events := RaceEvent(u, item, events, rate, frames, Some(Window(rate, capacity, 0, 0, 0)), 0, ReserveEvent(frames));
    RaceReserves(u, Reach(u, item, events[..|events| - 1]), rate, frames, capacity);
    var f := Window(rate, capacity, frames, 0, 0);
    var last := CreditEvent("g", F.Credit(capacity, frames, played, frames - played));
    events := RaceEvent(u, item, events, rate, frames, Some(f), frames, last);
    RaceCredits(u, Reach(u, item, events[..|events| - 1]), rate, frames, f, capacity, frames, played, frames);
    RaceEnds(u, item, events, rate, frames, capacity, played);
  }

  lemma RaceEvent(u: Setup, item: string, events: seq<Event>, rate: int, frames: int, flow: Option<F.FlowState>,
      granted: int, e: BookEvent) returns (more: seq<Event>)
    requires C.ValidConfig(u.conversation) && item != "" && !e.SentEvent?
    requires Racing(Reach(u, item, events), rate, frames, flow, granted)
    ensures more == events + [BooksEvent(e)] && more[..|more| - 1] == events
    ensures var s := Reach(u, item, events); s.books.items != [] && Reach(u, item, more) == KeepBooks(u, s, e)
  {
    hide Inv, HeldOk, KeepBooks, Sound, Reach;
    more := events + [BooksEvent(e)];
    ReachBooks(u, item, events, e);
  }

  lemma RaceEnds(u: Setup, item: string, events: seq<Event>, rate: nat, frames: int, capacity: int, played: int)
    requires C.ValidConfig(u.conversation) && item != "" && 0 < played <= frames
    requires Racing(Reach(u, item, events), rate, frames, Some(Window(rate, capacity, frames, frames, played)), frames)
    ensures var s := Reach(u, item, events);
      && s.books.flow.Some? && s.books.timeline.Some?
      && s.books.flow.value.played == played > s.books.timeline.value.sent == s.books.timeline.value.played == 0
    ensures var t := Reach(u, item, events + [BooksEvent(SentEvent("g", frames))]).books.timeline;
      t.Some? && t.value.sent == frames && t.value.played == played
  {
    hide Inv, HeldOk, KeepBooks, Sound, Reach, Writes;
    ReachBooks(u, item, events, SentEvent("g", frames));
    RaceRecords(u, Reach(u, item, events), rate, frames, capacity, played);
  }
}
