// A run in which server, session and player are in three different generations.
module GenerationOverlap {
  import opened Options
  import C = Client
  import M = PlayerModel
  import opened PlayerInvariant
  import R = PlayerRuns
  import opened Protocol
  import opened ProtocolInvariant
  import opened ProtocolGenerations
  import opened GenerationInvariant
  import opened GenerationRuns

  // Where everybody is and what is under way; no audio has been sent.
  ghost predicate At(m: Stage, gen: string, client: string, heard: string, down: seq<Signal<Down>>,
                     port: seq<Signal<R.Event>>, up: seq<(string, C.Up)>) {
    && m.fault == NoFault && m.gen == gen && m.client == client && Heard(m) == heard
    && m.down == down && m.port == port && m.up == up
  }

  ghost predicate Idle(m: Stage) { CanBegin(Alone(m)) }

  lemma AttemptHappens(c: M.Config, m: Stage, a: Act)
    requires WellConfigured(c) && Upheld(c, m) && Allowed(c, m, a)
    ensures Inv(m.player.view) && Attempt(c, m, a) == Happens(c, m, a)
  {
    hide Upheld, Coherent, Allowed, Happens, Inv;
    assert m.fault == NoFault ==> Inv(m.player.view) by { if m.fault == NoFault { UpheldInv(c, m); } }
    FreeOfFault(c, m, a);
  }

  lemma FreeOfFault(c: M.Config, m: Stage, a: Act)
    requires c.outputRate > 0 && Allowed(c, m, a)
    ensures m.fault == NoFault
  {
  }

  lemma UpheldInv(c: M.Config, m: Stage)
    requires Upheld(c, m) && m.fault == NoFault
    ensures Inv(m.player.view)
  {
    hide Coherent, Inv;
    Playable(c, m);
  }

  lemma UpheldLinks(c: M.Config, m: Stage)
    requires Upheld(c, m) && m.fault == NoFault
    ensures Links(c, m)
  {
    var ws :| Tracked(c, m, ws);
    hide Links, World;
  }

  lemma StartAt(c: M.Config, m: Stage, id: string, t: Terms)
    requires WellConfigured(c) && Upheld(c, m) && m.fault == NoFault && id !in m.terms && SetupOk(SetupOf(c, id, t))
    ensures var n := Attempt(c, m, Start(id, t));
            && At(n, id, m.client, Heard(m), m.down + [On(id)], m.port, m.up) && Idle(n)
            && n.terms == m.terms[id := t] && n.audio == m.audio && n.player == m.player
  {
    assert Allowed(c, m, Start(id, t));
    hide Upheld, Allowed, Attempt, Inv, Good, SetupOk;
    AttemptHappens(c, m, Start(id, t));
    InitIdle(SetupOf(c, id, t));
    hide Init;
  }

  lemma InitIdle(u: Setup)
    requires SetupOk(u)
    ensures var d := Init(u).sender; !d.finished && !d.open && d.unrecorded == 0
  {
    hide Inv;
  }

  lemma LoopsBegin(c: M.Config, m: Stage)
    requires c.outputRate > 0 && Inv(m.player.view) && Enabled(In(c, m, m.gen), Alone(m), BeginMove)
    ensures var n := Loops(c, m, BeginMove);
            n == m.(sender := n.sender, made := n.made, down := m.down + [Item(m.gen, ChunkStarted)])
  {
    assert Tagged(m.gen, [ChunkStarted]) == [Item(m.gen, ChunkStarted)];
    hide Inv;
  }

  lemma BeginAt(c: M.Config, m: Stage)
    requires WellConfigured(c) && Upheld(c, m) && m.fault == NoFault && m.gen != "" && Idle(m)
    ensures var n := Attempt(c, m, Own(BeginMove));
            && At(n, m.gen, m.client, Heard(m), m.down + [Item(m.gen, ChunkStarted)], m.port, m.up)
            && n.terms == m.terms && n.audio == m.audio && n.player == m.player
  {
    hide Upheld, Attempt, Inv, Loops, Coherent, Idle;
    AttemptBegins(c, m);
    LoopsBegin(c, m);
  }

  lemma ReadAt(c: M.Config, m: Stage, id: string)
    requires WellConfigured(c) && Upheld(c, m) && m.fault == NoFault && m.down != [] && m.down[0] == On(id)
    ensures var n := Attempt(c, m, SessionTakes);
            && At(n, m.gen, id, Heard(m), m.down[1..], m.port + [On(id)], m.up) && n.sender == m.sender
            && n.terms == m.terms && n.audio == None && n.player == m.player
  {
    hide Upheld, Attempt, Inv, Coherent;
    AttemptHears(c, m);
  }

  lemma MayBegin(c: M.Config, m: Stage)
    requires c.outputRate > 0 && m.fault == NoFault && m.gen != "" && Idle(m)
    ensures Enabled(In(c, m, m.gen), Alone(m), BeginMove) && Allowed(c, m, Own(BeginMove))
  {
  }

  lemma AttemptBegins(c: M.Config, m: Stage)
    requires WellConfigured(c) && Upheld(c, m) && m.fault == NoFault && m.gen != "" && Idle(m)
    ensures Inv(m.player.view) && Enabled(In(c, m, m.gen), Alone(m), BeginMove)
    ensures Attempt(c, m, Own(BeginMove)) == Loops(c, m, BeginMove)
  {
    hide Upheld, Allowed, Attempt, Inv, Enabled, Loops, Idle, In, Alone, OfLoop;
    MayBegin(c, m);
    AttemptHappens(c, m, Own(BeginMove));
  }

  lemma AttemptHears(c: M.Config, m: Stage)
    requires WellConfigured(c) && Upheld(c, m) && m.fault == NoFault && m.down != []
    ensures Inv(m.player.view) && Attempt(c, m, SessionTakes) == Hears(c, m)
  {
    assert Allowed(c, m, SessionTakes);
    hide Upheld, Allowed, Attempt, Inv, Hears;
    AttemptHappens(c, m, SessionTakes);
  }

  // The first chunk of a generation opens its window.
  lemma HearsOpen(c: M.Config, m: Stage, id: string, t: Terms)
    requires m.down != [] && id != "" && m.down[0] == Item(id, ChunkStarted) && id in m.terms && m.terms[id] == t
    requires m.client == id && m.audio == None && M.ValidRate(t.rate)
    ensures var n := Hears(c, m);
            n == m.(down := m.down[1..], audio := n.audio, port := m.port + [Item(id, R.FormatEvent(id, t.rate))],
                    up := m.up + [(id, C.CreditMsg(C.SnapshotOf(C.Opened(t.rate))))], fault := NoFault)
  {
    var x := SessionReceive(In(c, m, id), Alone(m).(down := [ChunkStarted]));
    var credit := C.CreditMsg(C.SnapshotOf(C.Opened(t.rate)));
    assert x.port == [R.FormatEvent(id, t.rate)] && x.up == [credit] && x.fault == NoFault;
    assert Tagged(id, x.port) == [Item(id, R.FormatEvent(id, t.rate))];
    assert Addressed(id, x.up) == [(id, credit)];
    hide SessionReceive;
  }

  lemma OpenAt(c: M.Config, m: Stage, id: string, t: Terms)
    requires WellConfigured(c) && Upheld(c, m) && m.fault == NoFault && m.down != [] && id != ""
    requires m.down[0] == Item(id, ChunkStarted) && id in m.terms && m.terms[id] == t && M.ValidRate(t.rate)
    requires m.client == id && m.audio == None
    ensures var n := Attempt(c, m, SessionTakes);
            && At(n, m.gen, id, Heard(m), m.down[1..], m.port + [Item(id, R.FormatEvent(id, t.rate))],
                  m.up + [(id, C.CreditMsg(C.SnapshotOf(C.Opened(t.rate))))])
            && n.sender == m.sender && n.terms == m.terms && n.player == m.player
  {
    hide Upheld, Attempt, Inv, Hears, Coherent;
    AttemptHears(c, m);
    HearsOpen(c, m, id, t);
  }

  lemma EnterAt(c: M.Config, m: Stage, id: string)
    requires WellConfigured(c) && Upheld(c, m) && m.fault == NoFault && m.port != [] && m.port[0] == On(id)
    ensures var n := Attempt(c, m, PlayerTakes);
            && At(n, m.gen, m.client, id, m.down, m.port[1..], m.up) && n.sender == m.sender
            && n.terms == m.terms && n.audio == m.audio
  {
    assert Allowed(c, m, PlayerTakes);
    hide Upheld, Allowed, Attempt, Links, R.Advance, Inv, Tracked;
    AttemptHappens(c, m, PlayerTakes);
    UpheldLinks(c, m);
    EntersStage(c, m, id);
  }

  lemma Unfold(c: M.Config, m: Stage, a: Act, rest: seq<Act>)
    requires WellConfigured(c) && Upheld(c, m)
    ensures Execution(c, m, [a] + rest) == Execution(c, Attempt(c, m, a), rest)
  {
    assert ([a] + rest)[1..] == rest;
    hide Upheld, Attempt;
  }

  function First(ids: (string, string, string), t: Terms): seq<Act> {
    [Start(ids.0, t)] + ([SessionTakes] + ([PlayerTakes] + ([Own(BeginMove)] + Second(ids, t))))
  }

  function Second(ids: (string, string, string), t: Terms): seq<Act> {
    [Start(ids.1, t)] + ([SessionTakes] + ([SessionTakes] + ([Own(BeginMove)] + ([Start(ids.2, t)] + []))))
  }

  // The server answers a third time while the session has read of two answers and
  // the player of one; the first one's snapshot and format and the second one's
  // first chunk are still under way.
  lemma ThreeAtOnce(c: M.Config, ids: (string, string, string), t: Terms)
    requires ids.0 != ids.1 && ids.1 != ids.2 && ids.0 != ids.2
    requires SetupOk(SetupOf(c, ids.0, t)) && SetupOk(SetupOf(c, ids.1, t)) && SetupOk(SetupOf(c, ids.2, t))
    ensures At(Reached(c, First(ids, t)), ids.2, ids.1, ids.0,
               [Item(ids.1, ChunkStarted), On(ids.2)],
               [Item(ids.0, R.FormatEvent(ids.0, t.rate)), On(ids.1)],
               [(ids.0, C.CreditMsg(C.SnapshotOf(C.Opened(t.rate))))])
  {
    EmptyTracked(c);
    var m := Empty(c);
    assert WellConfigured(c) && Upheld(c, m) && m.terms == map[] && m.port == [] && m.up == [] && m.down == [];
    assert Reached(c, First(ids, t)) == Execution(c, m, First(ids, t));
    hide Upheld, Attempt, Execution, Empty, Idle, SetupOk, Reached;
    Unfold(c, m, Start(ids.0, t), [SessionTakes] + ([PlayerTakes] + ([Own(BeginMove)] + Second(ids, t))));
    StartAt(c, m, ids.0, t);
    var m1 := Attempt(c, m, Start(ids.0, t));
    Unfold(c, m1, SessionTakes, [PlayerTakes] + ([Own(BeginMove)] + Second(ids, t)));
    ReadAt(c, m1, ids.0);
    var m2 := Attempt(c, m1, SessionTakes);
    Unfold(c, m2, PlayerTakes, [Own(BeginMove)] + Second(ids, t));
    EnterAt(c, m2, ids.0);
    var m3 := Attempt(c, m2, PlayerTakes);
    SameIdle(m1, m3);
    Unfold(c, m3, Own(BeginMove), Second(ids, t));
    assert ids.0 != "" && M.ValidRate(t.rate) && ids.1 != "" by {
      hide *;
      TermsSane(c, ids.0, t);
      TermsSane(c, ids.1, t);
    }
    BeginAt(c, m3);
    var m4 := Attempt(c, m3, Own(BeginMove));
    Overtaken(c, m4, ids, t);
  }

  lemma TermsSane(c: M.Config, id: string, t: Terms)
    requires SetupOk(SetupOf(c, id, t))
    ensures id != "" && M.ValidRate(t.rate)
  {
  }

  lemma SameIdle(m: Stage, n: Stage)
    requires Idle(m) && n.sender == m.sender
    ensures Idle(n)
  {
  }

  lemma Overtaken(c: M.Config, m: Stage, ids: (string, string, string), t: Terms)
    requires WellConfigured(c) && Upheld(c, m) && ids.0 != ids.1 && ids.1 != ids.2 && ids.0 != ids.2
    requires SetupOk(SetupOf(c, ids.1, t)) && SetupOk(SetupOf(c, ids.2, t)) && ids.0 != "" && ids.1 != ""
    requires m.terms == map[ids.0 := t] && M.ValidRate(t.rate) && m.audio == None
    requires At(m, ids.0, ids.0, ids.0, [Item(ids.0, ChunkStarted)], [], [])
    ensures At(Execution(c, m, Second(ids, t)), ids.2, ids.1, ids.0,
               [Item(ids.1, ChunkStarted), On(ids.2)],
               [Item(ids.0, R.FormatEvent(ids.0, t.rate)), On(ids.1)],
               [(ids.0, C.CreditMsg(C.SnapshotOf(C.Opened(t.rate))))])
  {
    hide Upheld, Attempt, Idle, SetupOk;
    Unfold(c, m, Start(ids.1, t), [SessionTakes] + ([SessionTakes] + ([Own(BeginMove)] + ([Start(ids.2, t)] + []))));
    StartAt(c, m, ids.1, t);
    var m1 := Attempt(c, m, Start(ids.1, t));
    Unfold(c, m1, SessionTakes, [SessionTakes] + ([Own(BeginMove)] + ([Start(ids.2, t)] + [])));
    OpenAt(c, m1, ids.0, t);
    var m2 := Attempt(c, m1, SessionTakes);
    Unfold(c, m2, SessionTakes, [Own(BeginMove)] + ([Start(ids.2, t)] + []));
    ReadAt(c, m2, ids.1);
    var m3 := Attempt(c, m2, SessionTakes);
    SameIdle(m1, m3);
    Unfold(c, m3, Own(BeginMove), [Start(ids.2, t)] + []);
    BeginAt(c, m3);
    var m4 := Attempt(c, m3, Own(BeginMove));
    Unfold(c, m4, Start(ids.2, t), []);
    StartAt(c, m4, ids.2, t);
  }
}
