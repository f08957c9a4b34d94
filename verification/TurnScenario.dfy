// An undisturbed turn, start to end: heard, guessed, committed and answered by
// the adopted guess. So the barrier theorems are about something that happens.
module TurnScenario {
  import opened Options
  import C = ConversationModel
  import B = ConversationBounds
  import X = ConversationContext
  import P = Playback
  import opened TurnModel
  import opened TurnInvariant
  import opened TurnWorks
  import opened TurnRuns

  // The transcript fits and the clock leaves room for one attempt.
  ghost predicate Fitting(u: Setup, text: C.Text, now: int) {
    && C.ValidConfig(u.conversation)
    && u.conversation.valid(text) && !u.conversation.blank(text)
    && |text| <= u.conversation.maxItemBytes && |text| <= u.maxTranscriptBytes
    && u.speculation && u.maxAttempts > 0 && u.maxTurnBytes >= 2
    && u.minDelay <= now < u.maxDelay && 0 < u.timeout
  }

  ghost predicate Named(item: string) { item != "" && item !in {"t", "k", "u", "a", "g"} }

  const SAMPLE: Bytes := [0, 0]
  const KEY: Key := Key("k", "t", 2)

  function Undisturbed(text: C.Text, now: int): seq<Event> {
    [StartInputEvent, SpeechStartEvent("", "", "t", 0), AudioEvent(SAMPLE), EndSpeechEvent(true, 0),
     PollEvent(true, true, "k", now)]
    + [SttEvent(0, Some(text)), ModelEvent(0, true), DetectorEvent(2, Complete),
       PromoteEvent(1, KEY, "u", "a", "g", now)]
  }

  // --- the states on the way --------------------------------------------------

  function Heard(u: Setup, item: string): Session {
    Initial(u, item).(input := Input(true, true, SAMPLE, PossibleEnd, "t", 2, Some(0), false, true, false),
                      ids := {item, "t"}, stream := SAMPLE)
  }

  function Guess(now: int): Work {
    Work(KEY, Running, true, false, false, AtStt, None, [], [], 0, None, "", false, now, [], [])
  }

  function Guessing(u: Setup, item: string, now: int, w: Work): Session {
    Heard(u, item).(input := Input(true, true, SAMPLE, Waiting, "t", 2, Some(0), true, true, false),
                    spec := Speculation([w], Some(0), true, Some(now), "t", 1), ids := {item, "t", "k"},
                    log := [DetectorLaunched(2, 0, "t")])
  }

  function Guessed(now: int, text: C.Text, request: seq<C.Message>): Work {
    Guess(now).(result := Some(text), request := request, ready := true, state := Ready, phase := AtStream)
  }

  function Committed(u: Setup, item: string, now: int, w: Work): Session {
    Guessing(u, item, now, w.(committed := true, state := WorkState.Committed)).(
      input := Input(true, true, [], Listening, "", 3, None, false, true, false),
      response := Response(1, true, true, "t", false), contexts := 1, lo := 2, listen := 2, spoke := 2,
      log := [DetectorLaunched(2, 0, "t"), TurnCommitted("t", 1, 0, 2, 0, 0, SAMPLE, Some(KEY))])
  }

  // --- the steps --------------------------------------------------------------

  lemma HearStep(u: Setup, item: string)
    requires Named(item) && u.maxTurnBytes >= 2
    ensures var s := StartInput(Initial(u, item));
      && Unused(s, "t")
      && EndSpeech(u, AppendAudio(SpeechStart(u, s, "", "", "t", 0), u, SAMPLE), true, 0) == Heard(u, item)
  {
    var s := StartInput(Initial(u, item));
    assert s == Initial(u, item).(input := Input(true, true, [], Listening, "", 1, None, false, false, false));
    var t := SpeechStart(u, s, "", "", "t", 0);
    assert t == Initial(u, item).(input := Input(true, true, [], Speaking, "t", 2, None, false, false, false),
                                  ids := {item, "t"});
    var a := AppendAudio(t, u, SAMPLE);
    assert [] + SAMPLE == SAMPLE;
    assert a == t.(input := t.input.(buffer := SAMPLE), stream := SAMPLE);
  }

  lemma GuessStep(u: Setup, item: string, text: C.Text, now: int)
    requires Named(item) && Fitting(u, text, now)
    ensures Poll(u, Heard(u, item), true, true, "k", now) == Guessing(u, item, now, Guess(now))
    ensures Unused(Heard(u, item), "k")
  {
    var s := Heard(u, item);
    assert {item, "t"} + {"k"} == {item, "t", "k"};
    assert [] + [Guess(now)] == [Guess(now)];
    assert s.log + [DetectorLaunched(2, 0, "t")] == [DetectorLaunched(2, 0, "t")];
  }

  lemma AnswerStep(u: Setup, item: string, text: C.Text, now: int, request: seq<C.Message>)
    requires Named(item) && Fitting(u, text, now)
    requires C.Context(u.conversation, Initial(u, item).books.items, text) == Some(request)
    ensures var s := Guessing(u, item, now, Guess(now));
      && At(s, 0, AtStt)
      && var t := SttResult(u, s, 0, Some(text));
         At(t, 0, AtModel) && ModelResult(t, 0, true) == Guessing(u, item, now, Guessed(now, text, request))
  {
    hide C.Context;
    var s := Guessing(u, item, now, Guess(now));
    var w := Guess(now).(result := Some(text), request := request, phase := AtModel);
    assert [Guess(now)][0 := w] == [w];
    assert SttResult(u, s, 0, Some(text)) == Guessing(u, item, now, w);
    assert [w][0 := Guessed(now, text, request)] == [Guessed(now, text, request)];
  }

  lemma CommitStep(u: Setup, item: string, now: int, w: Work)
    requires Named(item) && w.key == KEY && w.live && w.state == Ready && !w.committed
    ensures DetectorResult(u, Guessing(u, item, now, w), 2, Complete) == Committed(u, item, now, w)
  {
    var s := Guessing(u, item, now, w);
    var v := w.(committed := true, state := WorkState.Committed);
    assert [w][0 := v] == [v];
    assert s.log + [TurnCommitted("t", 1, 0, 2, 0, 0, SAMPLE, Some(KEY))]
      == [DetectorLaunched(2, 0, "t"), TurnCommitted("t", 1, 0, 2, 0, 0, SAMPLE, Some(KEY))];
  }

  // What the guess was asked is what the official answer asks.
  lemma SameQuestion(u: Setup, item: string, text: C.Text) returns (request: seq<C.Message>)
    requires C.ValidConfig(u.conversation) && item != ""
    requires u.conversation.valid(text) && !u.conversation.blank(text) && |text| <= u.conversation.maxItemBytes
    ensures Fresh(u, item, text, request)
  {
    var c := u.conversation;
    var b := Initial(u, item).books;
    hide C.Context, C.CommitUser, C.Trim;
    B.FreshStoreOk(c, item);
    P.CommitUserOk(c, b.items, "u", "t", text);
    B.CurrentStays(c, b.items + [C.UserItem("u", "t", text)], "t");
    X.PeekCommitCommute(c, b.items, "u", "t", text);
    request := C.Context(c, b.items, text).value;
  }

  lemma PromoteStep(u: Setup, item: string, text: C.Text, now: int, request: seq<C.Message>)
    requires Named(item) && Fitting(u, text, now) && Fresh(u, item, text, request)
    ensures var s := Committed(u, item, now, Guessed(now, text, request));
      && Distinct3(s, "u", "a", "g")
      && Adopts(s, Promote(u, s, 1, KEY, "u", "a", "g", now), request)
  {
    hide C.Context, C.CommitUser, P.FinalizeCurrent, C.BeginAssistant;
    var s := Committed(u, item, now, Guessed(now, text, request));
    var d := BeginResponse(u, s, 1, text, false, "u", "a", "g");
    assert d.log == s.log + [GenerationBegun(1, "t", "g")] && d.generation.request == request;
  }

  ghost predicate Fresh(u: Setup, item: string, text: C.Text, request: seq<C.Message>) {
    var c := u.conversation;
    var b := Initial(u, item).books;
    && P.FinalizeCurrent(b) == b
    && C.Context(c, b.items, text) == Some(request)
    && C.CommitUser(c, b.items, "u", "t", text) == (b.items + [C.UserItem("u", "t", text)], C.Accepted)
    && C.Context(c, b.items + [C.UserItem("u", "t", text)], []) == Some(request)
  }

  // The answer began, from the guess, with exactly the request the guess answered.
  ghost predicate Adopts(s: Session, d: Session, request: seq<C.Message>) {
    && d.log == s.log + [GenerationBegun(1, "t", "g"), WorkPromoted(0, 1, "g")]
    && |d.spec.works| == 1 && d.spec.works[0].adopted && d.spec.works[0].request == request
    && d.books.gen == "g" && d.generation.request == request && !d.closed
  }

  // --- the run ----------------------------------------------------------------

  lemma OneStep(u: Setup, s: Session, events: seq<Event>, i: nat, d: Session)
    requires i < |events| && Sound(u, s) && Enabled(s, events[i]) && s.books.items != [] && d == Next(u, s, events[i])
    ensures Sound(u, d) && Execute(u, s, events[i..]) == Execute(u, d, events[i + 1..])
  {
    hide Inv, Next, Enabled;
    assert events[i..][0] == events[i] && events[i..][1..] == events[i + 1..];
    assert Try(u, s, events[i]) == d;
  }

  lemma InputStep(u: Setup, s: Session, events: seq<Event>, i: nat, d: Session)
    requires i < |events| && Sound(u, s) && Enabled(s, events[i]) && s.books.items != []
    requires OfInput(events[i]) && d == InputNext(u, s, events[i])
    ensures Sound(u, d) && Execute(u, s, events[i..]) == Execute(u, d, events[i + 1..])
  {
    hide Inv, InputNext, Next, Enabled, Execute, Sound;
    NextParts(u, s, events[i]);
    OneStep(u, s, events, i, d);
  }

  lemma EndpointStep(u: Setup, s: Session, events: seq<Event>, i: nat, d: Session)
    requires i < |events| && Sound(u, s) && Enabled(s, events[i]) && s.books.items != []
    requires OfEndpoint(events[i]) && d == EndpointNext(u, s, events[i])
    ensures Sound(u, d) && Execute(u, s, events[i..]) == Execute(u, d, events[i + 1..])
  {
    hide Inv, EndpointNext, Next, Enabled, Execute, Sound;
    NextParts(u, s, events[i]);
    OneStep(u, s, events, i, d);
  }

  lemma WorkerStep(u: Setup, s: Session, events: seq<Event>, i: nat, d: Session)
    requires i < |events| && Sound(u, s) && Enabled(s, events[i]) && s.books.items != []
    requires OfWorker(events[i]) && d == WorkerNext(u, s, events[i])
    ensures Sound(u, d) && Execute(u, s, events[i..]) == Execute(u, d, events[i + 1..])
  {
    hide Inv, WorkerNext, Next, Enabled, Execute, Sound;
    NextParts(u, s, events[i]);
    OneStep(u, s, events, i, d);
  }

  lemma HearRun(u: Setup, item: string, events: seq<Event>)
    requires C.ValidConfig(u.conversation) && Named(item) && u.maxTurnBytes >= 2 && |events| >= 4
    requires events[0] == StartInputEvent && events[1] == SpeechStartEvent("", "", "t", 0)
    requires events[2] == AudioEvent(SAMPLE) && events[3] == EndSpeechEvent(true, 0)
    ensures Sound(u, Heard(u, item)) && Reach(u, item, events) == Execute(u, Heard(u, item), events[4..])
  {
    hide Inv, StartInput, SpeechStart, AppendAudio, EndSpeech, Execute, Next, Sound;
    SpeakRun(u, item, events);
    HearStep(u, item);
    HearOpen(u, item);
    var a := StartInput(Initial(u, item));
    var b := SpeechStart(u, a, "", "", "t", 0);
    var c := AppendAudio(b, u, SAMPLE);
    InputStep(u, b, events, 2, c);
    InputStep(u, c, events, 3, Heard(u, item));
  }

  lemma SpeakRun(u: Setup, item: string, events: seq<Event>)
    requires C.ValidConfig(u.conversation) && Named(item) && u.maxTurnBytes >= 2 && |events| >= 4
    requires events[0] == StartInputEvent && events[1] == SpeechStartEvent("", "", "t", 0)
    ensures var b := SpeechStart(u, StartInput(Initial(u, item)), "", "", "t", 0);
      Sound(u, b) && Reach(u, item, events) == Execute(u, b, events[2..])
  {
    hide Inv, StartInput, SpeechStart, Execute, Next;
    InitialOk(u, item);
    HearStep(u, item);
    HearOpen(u, item);
    var a := StartInput(Initial(u, item));
    InputStep(u, Initial(u, item), events, 0, a);
    InputStep(u, a, events, 1, SpeechStart(u, a, "", "", "t", 0));
    assert events[0..] == events;
  }

  lemma HearOpen(u: Setup, item: string)
    ensures var a := StartInput(Initial(u, item)); var b := SpeechStart(u, a, "", "", "t", 0);
            var c := AppendAudio(b, u, SAMPLE);
      && a.books.items != [] && !a.closed && b.books.items != [] && !b.closed && c.books.items != [] && !c.closed
  {
  }

  // The silence is noticed: a guess is started.
  lemma GuessingRun(u: Setup, item: string, text: C.Text, now: int, events: seq<Event>)
    requires Named(item) && Fitting(u, text, now) && Sound(u, Heard(u, item))
    requires |events| == 9 && events[4] == PollEvent(true, true, "k", now)
    ensures var a := Guessing(u, item, now, Guess(now));
      Sound(u, a) && Execute(u, Heard(u, item), events[4..]) == Execute(u, a, events[5..])
  {
    hide Inv, Poll, Execute, Next, Sound, Fitting;
    GuessStep(u, item, text, now);
    EndpointStep(u, Heard(u, item), events, 4, Guessing(u, item, now, Guess(now)));
  }

  // It is transcribed and asked about.
  lemma GuessedRun(u: Setup, item: string, text: C.Text, now: int, request: seq<C.Message>, events: seq<Event>)
    requires Named(item) && Fitting(u, text, now) && Fresh(u, item, text, request)
    requires |events| == 9 && events[5] == SttEvent(0, Some(text)) && events[6] == ModelEvent(0, true)
    requires Sound(u, Guessing(u, item, now, Guess(now)))
    ensures var a, b := Guessing(u, item, now, Guess(now)), Guessing(u, item, now, Guessed(now, text, request));
      Sound(u, b) && Execute(u, a, events[5..]) == Execute(u, b, events[7..])
  {
    var a := Guessing(u, item, now, Guess(now));
    assert a.books.items != [] && !a.closed && At(a, 0, AtStt);
    hide *;
    Answers(u, item, text, now, request);
    WorkerTwice(u, a, events, text, Guessing(u, item, now, Guessed(now, text, request)));
  }

  lemma Answers(u: Setup, item: string, text: C.Text, now: int, request: seq<C.Message>)
    requires Named(item) && Fitting(u, text, now) && Fresh(u, item, text, request)
    ensures var a := Guessing(u, item, now, Guess(now)); var b := SttResult(u, a, 0, Some(text));
      && At(b, 0, AtModel) && ModelResult(b, 0, true) == Guessing(u, item, now, Guessed(now, text, request))
  {
    hide C.Context, Fitting;
    AnswerStep(u, item, text, now, request);
  }

  lemma WorkerTwice(u: Setup, a: Session, events: seq<Event>, text: C.Text, c: Session)
    requires |events| == 9 && events[5] == SttEvent(0, Some(text)) && events[6] == ModelEvent(0, true)
    requires Sound(u, a) && At(a, 0, AtStt) && a.books.items != [] && !a.closed
    requires var b := SttResult(u, a, 0, Some(text)); At(b, 0, AtModel) && c == ModelResult(b, 0, true)
    ensures Sound(u, c) && Execute(u, a, events[5..]) == Execute(u, c, events[7..])
  {
    hide Inv, SttResult, ModelResult, Execute, Next, Sound;
    var b := SttResult(u, a, 0, Some(text));
    SttKeepsOpen(u, a, text);
    WorkerStep(u, a, events, 5, b);
    WorkerStep(u, b, events, 6, c);
  }

  // The detector agrees: the turn is committed, and the guess with it.
  lemma CommittedRun(u: Setup, item: string, now: int, w: Work, events: seq<Event>)
    requires Named(item) && |events| == 9 && events[7] == DetectorEvent(2, Complete)
    requires w.key == KEY && w.live && !w.committed && w.state == Ready && Sound(u, Guessing(u, item, now, w))
    ensures var c := Committed(u, item, now, w);
      Sound(u, c) && Execute(u, Guessing(u, item, now, w), events[7..]) == Execute(u, c, events[8..])
  {
    hide Inv, DetectorResult, Execute, Next, Sound;
    CommitStep(u, item, now, w);
    EndpointStep(u, Guessing(u, item, now, w), events, 7, Committed(u, item, now, w));
  }

  lemma GuessRun(u: Setup, item: string, text: C.Text, now: int, request: seq<C.Message>, events: seq<Event>)
    requires Named(item) && Fitting(u, text, now) && Fresh(u, item, text, request) && Sound(u, Heard(u, item))
    requires |events| == 9 && events[4] == PollEvent(true, true, "k", now) && events[5] == SttEvent(0, Some(text))
    requires events[6] == ModelEvent(0, true) && events[7] == DetectorEvent(2, Complete)
    ensures var w := Guessed(now, text, request);
      && Sound(u, Committed(u, item, now, w))
      && Execute(u, Heard(u, item), events[4..]) == Execute(u, Committed(u, item, now, w), events[8..])
  {
    hide Inv, Execute, Sound, Guessing, Committed, Heard, Fitting, Fresh;
    GuessingRun(u, item, text, now, events);
    GuessedRun(u, item, text, now, request, events);
    CommittedRun(u, item, now, Guessed(now, text, request), events);
  }

  lemma SttKeepsOpen(u: Setup, s: Session, text: C.Text)
    requires At(s, 0, AtStt) && s.books.items != []
    ensures var d := SttResult(u, s, 0, Some(text)); d.books == s.books && d.closed == s.closed
  {
    hide C.Context;
  }

  lemma EventsInOrder(text: C.Text, now: int)
    ensures var events := Undisturbed(text, now);
            && |events| == 9 && events[9..] == []
            && events[0] == StartInputEvent && events[1] == SpeechStartEvent("", "", "t", 0)
            && events[2] == AudioEvent(SAMPLE) && events[3] == EndSpeechEvent(true, 0)
            && events[4] == PollEvent(true, true, "k", now) && events[5] == SttEvent(0, Some(text))
            && events[6] == ModelEvent(0, true) && events[7] == DetectorEvent(2, Complete)
            && events[8] == PromoteEvent(1, KEY, "u", "a", "g", now)
  {
  }

  // Speech is heard, ends, is transcribed and asked about ahead of time; the
  // detector agrees; the turn is committed, and the official answer is the guess.
  lemma UndisturbedAdopts(u: Setup, item: string, text: C.Text, now: int)
    requires Named(item) && Fitting(u, text, now)
    ensures Answered(Reach(u, item, Undisturbed(text, now)))
  {
    hide Inv, Execute, C.Context, C.CommitUser, Promote, Next, Enabled, Heard, Committed, Guessed, Answered, Fresh,
         Fitting, Reach, Undisturbed;
    var events := Undisturbed(text, now);
    EventsInOrder(text, now);
    FittingFacts(u, text, now);
    var request := SameQuestion(u, item, text);
    var s := Committed(u, item, now, Guessed(now, text, request));
    HearRun(u, item, events);
    GuessRun(u, item, text, now, request, events);
    LastStep(u, item, text, now, request);
    OneStep(u, s, events, 8, Next(u, s, events[8]));
    ExecuteNothing(u, Next(u, s, events[8]), events[9..]);
  }

  ghost predicate Answered(d: Session) {
    && !d.closed && d.books.gen == "g"
    && |d.log| == 4 && d.log[1].TurnCommitted? && d.log[1].audio == SAMPLE
    && d.log[2..] == [GenerationBegun(1, "t", "g"), WorkPromoted(0, 1, "g")]
    && |d.spec.works| == 1 && d.spec.works[0].adopted && d.spec.works[0].request == d.generation.request
  }

  lemma FittingFacts(u: Setup, text: C.Text, now: int)
    requires Fitting(u, text, now)
    ensures C.ValidConfig(u.conversation) && u.maxTurnBytes >= 2
    ensures u.conversation.valid(text) && !u.conversation.blank(text) && |text| <= u.conversation.maxItemBytes
  {
  }

  lemma LastStep(u: Setup, item: string, text: C.Text, now: int, request: seq<C.Message>)
    requires Named(item) && Fitting(u, text, now) && Fresh(u, item, text, request)
    ensures var s := Committed(u, item, now, Guessed(now, text, request));
            var e := PromoteEvent(1, KEY, "u", "a", "g", now);
      && s.books.items != [] && Enabled(s, e) && Answered(Next(u, s, e))
  {
    hide Promote, Fresh, Fitting;
    PromoteStep(u, item, text, now, request);
  }

  lemma ExecuteNothing(u: Setup, s: Session, events: seq<Event>)
    requires events == [] && Sound(u, s)
    ensures Execute(u, s, events) == s
  {
  }
}
