// Whole runs of any number of generations: whatever is still under way of former
// ones, the present one is as it would be alone, so no party refuses another,
// counts agree, and what is heard is what its own generation produced.
module GenerationRuns {
  import opened Arithmetic
  import opened Options
  import opened Resampling
  import C = Client
  import F = Flow
  import M = PlayerModel
  import opened PlayerInvariant
  import R = PlayerRuns
  import A = PlayerAck
  import K = PlayerCredit
  import opened Protocol
  import opened ProtocolInvariant
  import opened ProtocolPlayer
  import opened ProtocolRuns
  import opened ProtocolGenerations
  import opened GenerationInvariant
  import opened GenerationServer
  import opened GenerationClient
  import opened GenerationPlayer

  // Every generation there has been is in a state it could be in alone.
  ghost predicate Coherent(c: M.Config, m: Stage) { exists ws: map<string, System> :: Tracked(c, m, ws) }

  ghost predicate Upheld(c: M.Config, m: Stage) {
    m.fault == DescriptorLimit || (m.fault == NoFault && Coherent(c, m))
  }

  lemma Follow(c: M.Config, m: Stage)
    requires Links(c, m)
    ensures "" !in m.terms && End(m.client, m.down) == m.gen && End(Heard(m), m.port) == m.client
    ensures (m.gen == "" || m.gen in m.terms) && (m.client == "" || m.client in m.terms)
    ensures (Heard(m) == "" || (Heard(m) in m.terms && Heard(m) in m.played))
    ensures m.played <= m.read <= m.terms.Keys && (m.client != "" ==> m.client in m.read)
    ensures m.up != [] ==> m.up[0].0 in m.read
    ensures Inv(m.player.view) && c.outputRate > 0 && Follows(m) && Posts(m)
    ensures m.port != [] ==> Labelled(m.port[0])
  {
  }

  // One generation has moved and the others are where they were.
  lemma Rejoined(c: M.Config, n: Stage, ws: map<string, System>, k: string, v: System)
    requires Links(c, n) && ws.Keys == n.terms.Keys && k in ws && World(c, n, k, v)
    requires forall j | j in n.terms && j != k :: World(c, n, j, ws[j])
    ensures Tracked(c, n, ws[k := v])
  {
    hide Links, World;
  }

  // --- the server -------------------------------------------------------------

  lemma StopUpheld(c: M.Config, m: Stage, ws: map<string, System>)
    requires Tracked(c, m, ws) && m.gen != ""
    ensures Tracked(c, Ends(m), ws)
  {
    Follow(c, m);
    hide Links, World;
    StopFollows(c, m);
    forall k | k in m.terms ensures World(c, Ends(m), k, ws[k]) { StopWorld(c, m, k, ws[k]); }
  }

  lemma StrayUpheld(c: M.Config, m: Stage, ws: map<string, System>, id: string, message: Down)
    requires Tracked(c, m, ws) && id in m.terms && id != m.gen
    ensures Tracked(c, Strays(m, id, message), ws)
  {
    Follow(c, m);
    hide Links, World;
    StrayFollows(c, m, id, message);
    forall k | k in m.terms ensures World(c, Strays(m, id, message), k, ws[k]) {
      StrayWorld(c, m, id, message, k, ws[k]);
    }
  }

  lemma Look(c: M.Config, m: Stage, k: string, w: System)
    requires World(c, m, k, w)
    ensures SetupOk(In(c, m, k)) && Good(In(c, m, k), w) && w.fault == NoFault
    ensures k == m.gen ==> w.sender == m.sender && w.up == UpOf(k, m.up)
    ensures k == m.client ==> w.client == m.audio
    ensures k == Heard(m) ==> w.player == m.player && w.port == Live(k, Heard(m), m.port)
    ensures k == Heard(m) == m.client ==> w.delivered == Max(m.delivered, m.start)
  {
  }

  lemma WroteTracked(c: M.Config, m: Stage, ws: map<string, System>, sender: Sender, more: seq<Down>)
    requires Tracked(c, m, ws) && m.gen in m.terms
    requires var w := ws[m.gen]; Good(In(c, m, m.gen), w.(sender := sender, down := w.down + more))
    ensures var w := ws[m.gen];
            Tracked(c, Wrote(m, sender, more), ws[m.gen := w.(sender := sender, down := w.down + more)])
  {
    var n, w := Wrote(m, sender, more), ws[m.gen];
    assert m.gen != "" && End(m.client, m.down) == m.gen && n.terms == m.terms by { Follow(c, m); hide World; }
    hide Links, World, Good, SetupOk, Wrote, End, In;
    LoopFollows(c, m, sender, more);
    LoopOwn(c, m, w, sender, more);
    forall k | k in n.terms && k != m.gen ensures World(c, n, k, ws[k]) { LoopOther(c, m, k, ws[k], sender, more); }
    Rejoined(c, n, ws, m.gen, w.(sender := sender, down := w.down + more));
  }

  lemma LoopUpheld(c: M.Config, m: Stage, ws: map<string, System>, move: Move) returns (vs: map<string, System>)
    requires Tracked(c, m, ws) && m.gen != "" && OfLoop(move) && Inv(m.player.view) && c.outputRate > 0
    requires Enabled(In(c, m, m.gen), Alone(m), move)
    ensures Tracked(c, Loops(c, m, move), vs)
  {
    Follow(c, m);
    var u, w := In(c, m, m.gen), ws[m.gen];
    hide Links, World, Next, Enabled, Good, Inv, SetupOk, Follows, Posts, Labelled, End, Live, UpOf, Wrote;
    Look(c, m, m.gen, w);
    LoopGood(u, m, w, move);
    hide In, Alone;
    var t := Next(u, Alone(m), move);
    WroteTracked(c, m, ws, t.sender, t.down);
    vs := ws[m.gen := w.(sender := t.sender, down := w.down + t.down)];
  }

  lemma InformedTracked(c: M.Config, m: Stage, ws: map<string, System>, sender: Sender)
    requires Tracked(c, m, ws) && m.up != [] && m.gen == m.up[0].0 && sender.produced == m.sender.produced
    requires m.gen in m.terms
    requires var w := ws[m.gen]; w.up != [] && Good(In(c, m, m.gen), w.(up := w.up[1..], sender := sender))
    ensures var w := ws[m.gen]; Tracked(c, Informs(m, sender), ws[m.gen := w.(up := w.up[1..], sender := sender)])
  {
    var n, w := Informs(m, sender), ws[m.gen];
    assert n.terms == m.terms;
    hide Links, World, Good, SetupOk, Informs, In;
    InformsFollows(c, m, sender);
    InformsOwn(c, m, w, sender);
    forall k | k in n.terms && k != m.gen ensures World(c, n, k, ws[k]) { InformsOther(c, m, k, ws[k], sender); }
    Rejoined(c, n, ws, m.gen, w.(up := w.up[1..], sender := sender));
  }

  lemma UninformedTracked(c: M.Config, m: Stage, ws: map<string, System>)
    requires Tracked(c, m, ws) && m.up != [] && m.gen != m.up[0].0
    ensures Tracked(c, Informs(m, m.sender), ws)
  {
    hide Links, World;
    InformsFollows(c, m, m.sender);
    forall k | k in m.terms ensures World(c, Informs(m, m.sender), k, ws[k]) {
      InformsOther(c, m, k, ws[k], m.sender);
    }
  }

  lemma HeedsUpheld(c: M.Config, m: Stage, ws: map<string, System>) returns (vs: map<string, System>)
    requires Tracked(c, m, ws) && m.up != [] && m.fault == NoFault
    ensures Heeds(m).fault == NoFault && Tracked(c, Heeds(m), vs)
  {
    vs := ws;
    hide Tracked, SenderReceive;
    if m.up[0].0 != m.gen {
      UninformedTracked(c, m, ws);
    } else {
      HeededGood(c, m, ws);
      var t := SenderReceive(Alone(m).(up := [m.up[0].1]));
      InformedTracked(c, m, ws, t.sender);
      vs := ws[m.gen := ws[m.gen].(up := ws[m.gen].up[1..], sender := t.sender)];
    }
  }

  lemma HeededGood(c: M.Config, m: Stage, ws: map<string, System>)
    requires Tracked(c, m, ws) && m.up != [] && m.fault == NoFault && m.up[0].0 == m.gen
    ensures m.gen in m.terms && m.gen in ws
    ensures var t := SenderReceive(Alone(m).(up := [m.up[0].1])); var w := ws[m.gen];
            && t.fault == NoFault && t.sender.produced == m.sender.produced
            && w.up != [] && Good(In(c, m, m.gen), w.(up := w.up[1..], sender := t.sender))
            && Heeds(m) == Informs(m, t.sender)
  {
    Follow(c, m);
    Look(c, m, m.gen, ws[m.gen]);
    hide Links, World, SenderReceive, Good, Inv, SetupOk, Follows, Posts, Labelled, End, Live;
    InformsGood(In(c, m, m.gen), m, ws[m.gen]);
  }

  // --- the session ------------------------------------------------------------

  lemma MarkUpheld(c: M.Config, m: Stage, ws: map<string, System>)
    requires Tracked(c, m, ws) && m.down != [] && !m.down[0].Item?
    ensures Tracked(c, Hears(c, m), ws)
  {
    hide PlayerOk, SessionOk, A.AckOk;
    Follow(c, m);
    hide Links, World, Follows, Posts, Labelled, End;
    MarkLinks(c, m);
    forall k | k in m.terms ensures World(c, Hears(c, m), k, ws[k]) {
      if m.down[0].On? { OnWorld(c, m, k, ws[k]); } else { OffWorld(c, m, k, ws[k]); }
    }
  }

  // A message of another generation, of which the worklet hears a format at most.
  lemma StrangePassed(c: M.Config, m: Stage, ws: map<string, System>, id: string, events: seq<R.Event>)
    requires Tracked(c, m, ws) && m.down != [] && m.down[0].Item? && m.down[0].id == id != m.client
    requires forall i | 0 <= i < |events| :: Labelled(Item(id, events[i]))
    ensures Tracked(c, Passed(m, id, m.audio, events, []), ws)
  {
    Follow(c, m);
    hide Links, World, Follows, Posts, Labelled, End, Passed;
    PassedLinks(c, m, id, m.audio, events, []);
    PassedMade(m, id, m.audio, events, []);
    forall k | k in m.terms ensures World(c, Passed(m, id, m.audio, events, []), k, ws[k]) {
      PassedOther(c, m, id, m.audio, events, [], k, ws[k]);
    }
  }

  lemma PassedMade(m: Stage, id: string, audio: Option<C.Audio>, events: seq<R.Event>, told: seq<C.Up>)
    requires m.down != []
    ensures Passed(m, id, audio, events, told).terms == m.terms
  {
  }

  lemma StrangeUpheld(c: M.Config, m: Stage, ws: map<string, System>)
    requires Tracked(c, m, ws) && m.down != [] && m.down[0].Item? && m.down[0].id != m.client
    ensures Tracked(c, Hears(c, m), ws)
  {
    var id := m.down[0].id;
    assert id != "" by { Follow(c, m); hide World; }
    var events: seq<R.Event> :=
      if m.down[0].body.ChunkStarted? then [R.FormatEvent(id, TermsOf(m, id).rate)] else [];
    hide Tracked;
    StrangePassed(c, m, ws, id, events);
    StrangeHears(c, m, events);
  }

  lemma StrangeHears(c: M.Config, m: Stage, events: seq<R.Event>)
    requires m.down != [] && m.down[0].Item? && m.down[0].id != m.client
    requires events == if m.down[0].body.ChunkStarted?
                       then [R.FormatEvent(m.down[0].id, TermsOf(m, m.down[0].id).rate)] else []
    ensures Hears(c, m) == Passed(m, m.down[0].id, m.audio, events, [])
  {
    assert Addressed(m.down[0].id, []) == [];
    assert Tagged(m.down[0].id, events) == if events == [] then [] else [Item(m.down[0].id, events[0])];
  }

  lemma MessagePassed(c: M.Config, m: Stage, ws: map<string, System>, audio: Option<C.Audio>, events: seq<R.Event>,
                      told: seq<C.Up>)
    requires Tracked(c, m, ws) && m.down != [] && m.down[0].Item? && m.down[0].id == m.client && m.client in m.terms
    requires forall i | 0 <= i < |events| :: Labelled(Item(m.client, events[i]))
    requires var w := ws[m.client];
             w.down != [] && Good(In(c, m, m.client), w.(down := w.down[1..], client := audio, port := w.port + events,
                                                         up := w.up + told))
    ensures var w := ws[m.client];
            Tracked(c, Passed(m, m.client, audio, events, told),
                    ws[m.client := w.(down := w.down[1..], client := audio, port := w.port + events,
                                      up := w.up + told)])
  {
    var n, k, w := Passed(m, m.client, audio, events, told), m.client, ws[m.client];
    assert n.terms == m.terms && k in m.read && End(Heard(m), m.port) == k by { Follow(c, m); hide World; }
    hide Links, World, Good, SetupOk, Passed, In, End, Labelled;
    PassedLinks(c, m, k, audio, events, told);
    PassedOwn(c, m, audio, events, told, w);
    forall j | j in n.terms && j != k ensures World(c, n, j, ws[j]) {
      PassedOther(c, m, k, audio, events, told, j, ws[j]);
    }
    Rejoined(c, n, ws, k, w.(down := w.down[1..], client := audio, port := w.port + events, up := w.up + told));
  }

  lemma MessageUpheld(c: M.Config, m: Stage, ws: map<string, System>) returns (vs: map<string, System>)
    requires Tracked(c, m, ws) && m.down != [] && m.down[0].Item? && m.down[0].id == m.client != ""
             && m.fault == NoFault
    ensures Hears(c, m).fault == NoFault && Tracked(c, Hears(c, m), vs)
  {
    var k := m.client;
    assert k in m.terms && World(c, m, k, ws[k]) by { Follow(c, m); hide World; }
    HearsOwn(c, m, ws[k]);
    var w, t := ws[k], SessionReceive(In(c, m, k), Alone(m).(down := [m.down[0].body]));
    hide Tracked, World, SessionReceive, Good, Labelled, In, Alone;
    MessagePassed(c, m, ws, t.client, t.port, t.up);
    vs := ws[k := w.(down := w.down[1..], client := t.client, port := w.port + t.port, up := w.up + t.up)];
  }

  // --- reports ----------------------------------------------------------------

  lemma SkipUpheld(c: M.Config, m: Stage, ws: map<string, System>)
    requires Tracked(c, m, ws) && m.delivered < |m.player.view.posted|
    requires m.client == "" || m.player.view.posted[m.delivered].generation != m.client
    ensures Tracked(c, m.(delivered := m.delivered + 1), ws)
  {
    Follow(c, m);
    hide Links, World, Follows, Posts, Labelled, End;
    SkipLinks(c, m);
    forall k | k in m.terms ensures World(c, m.(delivered := m.delivered + 1), k, ws[k]) { SkipWorld(c, m, k, ws[k]); }
  }

  lemma ToldTracked(c: M.Config, m: Stage, ws: map<string, System>, audio: Option<C.Audio>, told: seq<C.Up>)
    requires Tracked(c, m, ws) && m.delivered < |m.player.view.posted| && m.client in m.terms
    requires m.client == Heard(m) && m.delivered >= m.start
    requires var w := ws[m.client];
             Good(In(c, m, m.client), w.(delivered := w.delivered + 1, client := audio, up := w.up + told))
    ensures var w := ws[m.client];
            Tracked(c, Told(m, audio, told),
                    ws[m.client := w.(delivered := w.delivered + 1, client := audio, up := w.up + told)])
  {
    hide PlayerOk, ReportsOk, Fixed;
    var n, w := Told(m, audio, told), ws[m.client];
    assert n.terms == m.terms && m.client != "" by { Follow(c, m); hide World; }
    hide Links, World, Good, SetupOk, Told, In;
    ToldLinks(c, m, audio, told);
    ToldOwn(c, m, audio, told, w);
    forall k | k in n.terms && k != m.client ensures World(c, n, k, ws[k]) { ToldOther(c, m, audio, told, k, ws[k]); }
    Rejoined(c, n, ws, m.client, w.(delivered := w.delivered + 1, client := audio, up := w.up + told));
  }

  // The report is the one the generation on its own would have delivered next.
  lemma ToldGood(c: M.Config, m: Stage, ws: map<string, System>)
    requires Tracked(c, m, ws) && m.delivered < |m.player.view.posted|
    requires m.client != "" && m.player.view.posted[m.delivered].generation == m.client
    ensures m.client in ws && m.client == Heard(m) && m.delivered >= m.start
    ensures var t := Deliver(Alone(m)); var w := ws[m.client];
            && t.fault == NoFault && t.delivered == m.delivered + 1
            && Good(In(c, m, m.client), w.(delivered := w.delivered + 1, client := t.client, up := w.up + t.up))
  {
    Follow(c, m);
    PassesPresent(m);
    var w := ws[m.client];
    hide Links, World, Deliver, Good, Inv, SetupOk, Follows, Posts, Labelled, End, Live, UpOf;
    Look(c, m, m.client, w);
    DeliverKeepsGood(In(c, m, m.client), w);
    DeliverLocal(m, w);
  }

  lemma PassesTold(m: Stage)
    requires m.delivered < |m.player.view.posted| && m.fault == NoFault
    requires m.client != "" && m.player.view.posted[m.delivered].generation == m.client
    requires Deliver(Alone(m)).fault == NoFault && Deliver(Alone(m)).delivered == m.delivered + 1
    ensures var t := Deliver(Alone(m)); Passes(m) == Told(m, t.client, t.up)
  {
    hide Deliver;
  }

  lemma TellsUpheld(c: M.Config, m: Stage, ws: map<string, System>) returns (vs: map<string, System>)
    requires Tracked(c, m, ws) && m.delivered < |m.player.view.posted| && m.fault == NoFault
    requires m.client != "" && m.player.view.posted[m.delivered].generation == m.client
    ensures Passes(m).fault == NoFault && Tracked(c, Passes(m), vs)
  {
    assert ws.Keys == m.terms.Keys;
    hide Tracked, Deliver, Passes, Told, Alone, In, Good;
    ToldGood(c, m, ws);
    PassesTold(m);
    var t, w := Deliver(Alone(m)), ws[m.client];
    ToldTracked(c, m, ws, t.client, t.up);
    ToldFault(m, t.client, t.up);
    vs := ws[m.client := w.(delivered := w.delivered + 1, client := t.client, up := w.up + t.up)];
  }

  lemma PassesUpheld(c: M.Config, m: Stage, ws: map<string, System>) returns (vs: map<string, System>)
    requires Tracked(c, m, ws) && m.delivered < |m.player.view.posted| && m.fault == NoFault
    ensures Passes(m).fault == NoFault && Tracked(c, Passes(m), vs)
  {
    hide Tracked;
    if m.client == "" || m.player.view.posted[m.delivered].generation != m.client {
      SkipUpheld(c, m, ws);
      vs := ws;
    } else {
      vs := TellsUpheld(c, m, ws);
    }
  }

  lemma ToldFault(m: Stage, audio: Option<C.Audio>, told: seq<C.Up>)
    ensures Told(m, audio, told).fault == m.fault
  {
  }

  // --- the player -------------------------------------------------------------

  lemma EntersStage(c: M.Config, m: Stage, id: string)
    requires Links(c, m) && m.port != [] && m.port[0] == On(id)
    ensures Inv(m.player.view) && id in m.terms && id !in m.played
    ensures var r := R.Advance(m.player, R.SetGenerationEvent(id));
            && m.delivered <= |r.view.posted| && R.RunOk(r) && A.AckOk(r.view) && r.view.config == c
            && Fresh(r.view, id)
            && r.view.generation == id
  {
    assert Announces(m.port, id) && Labelled(m.port[0]);
    Follow(c, m);
    assert id != "" && id != Heard(m) && R.RunOk(m.player) && A.AckOk(m.player.view) && m.player.view.config == c;
    assert m.delivered <= |m.player.view.posted|;
    hide Links, Fixed, Follows, Posts, R.RunOk, A.AckOk, R.Advance, Inv, Fresh, Announces, Once, End, Labelled;
    EntersFresh(m.player, id);
    FreshIn(R.Advance(m.player, R.SetGenerationEvent(id)).view, id);
    AdvanceKeeps(m.player, R.SetGenerationEvent(id));
  }

  lemma EnterUpheld(c: M.Config, m: Stage, ws: map<string, System>, id: string) returns (vs: map<string, System>)
    requires Tracked(c, m, ws) && m.port != [] && m.port[0] == On(id) && Inv(m.player.view)
    ensures Tracked(c, Entered(m, id, R.Advance(m.player, R.SetGenerationEvent(id))), vs)
  {
    var r := R.Advance(m.player, R.SetGenerationEvent(id));
    var n := Entered(m, id, r);
    assert n.terms == m.terms;
    hide Links, World, Entered, R.Advance, Inv, In, R.RunOk, A.AckOk, Fresh;
    EntersStage(c, m, id);
    EnterLinks(c, m, id);
    var w := ws[id];
    EnterOwn(c, m, id, r, w);
    forall k | k in n.terms && k != id ensures World(c, n, k, ws[k]) { EnterOther(c, m, id, r, k, ws[k]); }
    vs := ws[id := w.(player := r, delivered := |r.view.posted|)];
    Rejoined(c, n, ws, id, w.(player := r, delivered := |r.view.posted|));
  }

  lemma LeaveUpheld(c: M.Config, m: Stage, ws: map<string, System>, id: string)
    requires Tracked(c, m, ws) && m.port != [] && m.port[0] == Off(id) && Inv(m.player.view)
    ensures Tracked(c, Taken(m, R.Advance(m.player, R.ClearEvent(id))), ws)
  {
    hide PlayerOk, SessionOk;
    var r := R.Advance(m.player, R.ClearEvent(id));
    assert id != "" && "" !in m.terms by { Follow(c, m); hide World; }
    LeaveTurns(m.player, id);
    hide Links, World, R.Advance, Inv, In;
    TakenLinks(c, m, R.ClearEvent(id));
    forall k | k in m.terms ensures World(c, Taken(m, r), k, ws[k]) { LeftWorld(c, m, r, k, ws[k]); }
  }

  lemma IgnoreUpheld(c: M.Config, m: Stage, ws: map<string, System>)
    requires Tracked(c, m, ws) && m.port != [] && m.port[0].Item? && m.port[0].id != Heard(m) && Inv(m.player.view)
    ensures R.Advance(m.player, m.port[0].body) == m.player && Tracked(c, Taken(m, m.player), ws)
  {
    var e := m.port[0].body;
    assert Labelled(m.port[0]) && "" !in m.terms by { Follow(c, m); hide World; }
    StrangerIgnored(m.player, e);
    hide Links, World, R.Advance, Inv, In, Labelled;
    TakenLinks(c, m, e);
    forall k | k in m.terms ensures World(c, Taken(m, m.player), k, ws[k]) { LeftWorld(c, m, m.player, k, ws[k]); }
  }

  lemma TakenTracked(c: M.Config, m: Stage, ws: map<string, System>, e: R.Event)
    requires Tracked(c, m, ws) && m.port != [] && m.port[0].Item? && m.port[0].id == Heard(m) && Inv(m.player.view)
    requires Heard(m) in m.played && Heard(m) in ws && R.Advance(m.player, e).view.generation == Heard(m)
    requires var w := ws[Heard(m)];
             w.port != [] && Good(In(c, m, Heard(m)), w.(port := w.port[1..], player := R.Advance(m.player, e)))
    ensures var w := ws[Heard(m)];
            Tracked(c, Taken(m, R.Advance(m.player, e)),
                    ws[Heard(m) := w.(port := w.port[1..], player := R.Advance(m.player, e))])
  {
    var r := R.Advance(m.player, e);
    var n, k, w := Taken(m, r), Heard(m), ws[Heard(m)];
    assert n.terms == m.terms;
    hide Links, World, Good, R.Advance, Inv, In;
    TakenLinks(c, m, e);
    hide Taken;
    TakenOwn(c, m, r, w);
    forall j | j in n.terms && j != k ensures World(c, n, j, ws[j]) { TakenOther(c, m, r, j, ws[j]); }
    Rejoined(c, n, ws, k, w.(port := w.port[1..], player := r));
  }

  lemma HeadOfPort(c: M.Config, m: Stage, w: System)
    requires m.port != [] && m.port[0].Item? && m.port[0].id == Heard(m) && World(c, m, Heard(m), w)
    ensures Good(In(c, m, Heard(m)), w) && w.fault == NoFault && w.player == m.player
    ensures w.port != [] && w.port[0] == m.port[0].body
  {
    hide Good, SetupOk;
    assert w.port == [m.port[0].body] + Live(Heard(m), Heard(m), m.port[1..]);
  }

  // The generation on its own takes the same message, or the descriptors are used up.
  lemma TakesGood(c: M.Config, m: Stage, ws: map<string, System>)
    requires Tracked(c, m, ws) && m.port != [] && m.port[0].Item? && m.port[0].id == Heard(m)
    ensures Inv(m.player.view) && Heard(m) in m.played && Heard(m) in ws
    ensures var w := ws[Heard(m)]; var next := R.Advance(m.player, m.port[0].body);
            if next.view.stream.epoch == m.player.view.stream.epoch
            then next.view.generation == Heard(m) && w.port != []
                 && Good(In(c, m, Heard(m)), w.(port := w.port[1..], player := next))
            else |m.player.view.live| == M.DESCRIPTORS
  {
    assert Labelled(m.port[0]) && Heard(m) in m.terms && Heard(m) in m.played && Inv(m.player.view) by {
      Follow(c, m);
      hide World;
    }
    assert World(c, m, Heard(m), ws[Heard(m)]);
    HeadOfPort(c, m, ws[Heard(m)]);
    hide Tracked, Good, Inv, Labelled, R.Advance, World;
    TakesAlone(In(c, m, Heard(m)), m, ws[Heard(m)], m.port[0].body);
  }

  lemma ObeysUpheld(c: M.Config, m: Stage, ws: map<string, System>) returns (vs: map<string, System>)
    requires Tracked(c, m, ws) && m.port != [] && m.fault == NoFault && Inv(m.player.view)
    ensures var n := Obeys(m); n.fault == DescriptorLimit || (n.fault == NoFault && Tracked(c, n, vs))
  {
    vs := ws;
    hide Tracked, R.Advance, Inv;
    match m.port[0]
    case On(id) => vs := EnterUpheld(c, m, ws, id);
    case Off(id) => LeaveUpheld(c, m, ws, id);
    case Item(id, e) =>
      if id != Heard(m) {
        IgnoreUpheld(c, m, ws);
      } else {
        vs := OwnTakenUpheld(c, m, ws);
      }
  }

  lemma OwnTakenUpheld(c: M.Config, m: Stage, ws: map<string, System>) returns (vs: map<string, System>)
    requires Tracked(c, m, ws) && m.port != [] && m.fault == NoFault && Inv(m.player.view)
    requires m.port[0].Item? && m.port[0].id == Heard(m)
    ensures var n := Obeys(m); n.fault == DescriptorLimit || (n.fault == NoFault && Tracked(c, n, vs))
  {
    hide R.Step;
    vs := ws;
    var e := m.port[0].body;
    var next := R.Advance(m.player, e);
    hide Tracked, R.Advance, Inv, Good, In;
    TakesGood(c, m, ws);
    if next.view.stream.epoch == m.player.view.stream.epoch {
      TakenTracked(c, m, ws, e);
      vs := ws[Heard(m) := ws[Heard(m)].(port := ws[Heard(m)].port[1..], player := next)];
    }
  }

  lemma SilentUpheld(c: M.Config, m: Stage, ws: map<string, System>, frames: nat)
    requires Tracked(c, m, ws) && Inv(m.player.view) && Heard(m) == ""
    ensures m.(player := R.Advance(m.player, R.RenderEvent(frames))) == m
  {
    NobodyRenders(m.player, frames);
  }

  lemma RenderUpheld(c: M.Config, m: Stage, ws: map<string, System>, frames: nat) returns (vs: map<string, System>)
    requires Tracked(c, m, ws) && Inv(m.player.view)
    ensures Tracked(c, m.(player := R.Advance(m.player, R.RenderEvent(frames))), vs)
  {
    vs := ws;
    if Heard(m) == "" {
      SilentUpheld(c, m, ws, frames);
    } else {
      var r := R.Advance(m.player, R.RenderEvent(frames));
      var n, k := m.(player := r), Heard(m);
      assert k in m.terms && k in m.played && n.terms == m.terms by { Follow(c, m); hide World; }
      hide Links, World, R.Advance, Inv, In;
      RenderLinks(c, m, frames);
      RenderStays(m.player, frames);
      RenderOwn(c, m, frames, ws[k]);
      forall j | j in n.terms && j != k ensures World(c, n, j, ws[j]) { RenderOther(c, m, r, j, ws[j]); }
      vs := ws[k := ws[k].(player := r)];
      Rejoined(c, n, ws, k, ws[k].(player := r));
    }
  }

  ghost function Commanded(m: Stage, e: R.Event): Stage { m.(port := m.port + [Item(m.client, e)]) }

  lemma CommandUpheld(c: M.Config, m: Stage, ws: map<string, System>, e: R.Event) returns (vs: map<string, System>)
    requires Tracked(c, m, ws) && m.client != "" && PauseEvent(In(c, m, m.client), e)
    ensures Tracked(c, Commanded(m, e), vs)
  {
    var n, k := Commanded(m, e), m.client;
    assert k in m.terms && n.terms == m.terms && End(Heard(m), m.port) == k by { Follow(c, m); hide World; }
    hide Links, World, Commanded;
    CommandLinks(c, m, e);
    CommandOwn(c, m, e, ws[k]);
    forall j | j in n.terms && j != k ensures World(c, n, j, ws[j]) { CommandOther(c, m, e, j, ws[j]); }
    vs := ws[k := ws[k].(port := ws[k].port + [e])];
    Rejoined(c, n, ws, k, ws[k].(port := ws[k].port + [e]));
  }

  lemma CommandLinks(c: M.Config, m: Stage, e: R.Event)
    requires Links(c, m) && m.client != "" && PauseEvent(In(c, m, m.client), e)
    ensures Links(c, Commanded(m, e))
  {
    hide SetupOk, A.AckOk, R.Heard;
    var n := Commanded(m, e);
    assert Labelled(Item(m.client, e));
    hide R.RunOk, A.AckOk, SetupOk;
    FixedSame(c, m, n);
    PortFollows(m, Item(m.client, e), n);
    hide End, Once, Announces, Labelled;
  }

  lemma CommandOwn(c: M.Config, m: Stage, e: R.Event, w: System)
    requires End(Heard(m), m.port) == m.client && PauseEvent(In(c, m, m.client), e) && World(c, m, m.client, w)
    ensures World(c, Commanded(m, e), m.client, w.(port := w.port + [e]))
  {
    assert In(c, Commanded(m, e), m.client) == In(c, m, m.client);
    ControlGood(In(c, m, m.client), w, e);
    LiveAppend(m.client, Heard(m), m.port, Item(m.client, e));
    hide Good, SetupOk, Live;
  }

  lemma CommandOther(c: M.Config, m: Stage, e: R.Event, k: string, w: System)
    requires k != m.client && World(c, m, k, w)
    ensures World(c, Commanded(m, e), k, w)
  {
    assert In(c, Commanded(m, e), k) == In(c, m, k);
    LiveAppend(k, Heard(m), m.port, Item(m.client, e));
    hide Good, SetupOk, Live;
  }

  // --- whole runs -------------------------------------------------------------

  // Whatever one party does, every generation there has been stays in a state it
  // could be in alone; a full descriptor table is the one fault there is.
  lemma HappensUpheld(c: M.Config, m: Stage, a: Act, ws: map<string, System>) returns (vs: map<string, System>)
    requires Tracked(c, m, ws) && Inv(m.player.view) && c.outputRate > 0 && Allowed(c, m, a)
    ensures var n := Happens(c, m, a); n.fault == DescriptorLimit || (n.fault == NoFault && Tracked(c, n, vs))
  {
    vs := ws;
    hide Tracked, R.Advance, Inv, SetupOk, Enabled, Obeys, Passes, Hears, Heeds, Next, Init, In;
    match a
    case Start(id, t) => StartTracked(c, m, ws, id, t); vs := ws[id := Init(SetupOf(c, id, t))];
    case Stop => StopUpheld(c, m, ws);
    case Own(move) => vs := LoopUpheld(c, m, ws, move);
    case Stray(id, message) => StrayUpheld(c, m, ws, id, message);
    case SenderTakes => vs := HeedsUpheld(c, m, ws);
    case SessionTakes => vs := HearsUpheld(c, m, ws);
    case ReportTaken => vs := PassesUpheld(c, m, ws);
    case PlayerTakes => vs := ObeysUpheld(c, m, ws);
    case Render(frames) => vs := RenderUpheld(c, m, ws, frames);
    case Command(e) => vs := CommandUpheld(c, m, ws, e);
  }

  lemma HearsUpheld(c: M.Config, m: Stage, ws: map<string, System>) returns (vs: map<string, System>)
    requires Tracked(c, m, ws) && m.down != [] && m.fault == NoFault
    ensures Hears(c, m).fault == NoFault && Tracked(c, Hears(c, m), vs)
  {
    vs := ws;
    if !m.down[0].Item? {
      hide Tracked, SessionReceive;
      MarkUpheld(c, m, ws);
    } else if m.down[0].id != m.client {
      hide Tracked, SessionReceive;
      StrangeUpheld(c, m, ws);
    } else {
      assert m.client != "" by { Follow(c, m); hide World; }
      hide Tracked;
      vs := MessageUpheld(c, m, ws);
    }
  }

  lemma Playable(c: M.Config, m: Stage)
    requires Coherent(c, m)
    ensures WellConfigured(c) && Inv(m.player.view)
  {
    var ws :| Tracked(c, m, ws);
    hide World;
  }

  lemma ActUpheld(c: M.Config, m: Stage, a: Act)
    requires Coherent(c, m) && Inv(m.player.view) && c.outputRate > 0 && Allowed(c, m, a)
    ensures Upheld(c, Happens(c, m, a))
  {
    var ws :| Tracked(c, m, ws);
    hide Tracked, Happens, Inv, Allowed;
    var vs := HappensUpheld(c, m, a, ws);
  }

  // A run tries its acts one after another; one that is not allowed does nothing.
  ghost function Attempt(c: M.Config, m: Stage, a: Act): (n: Stage)
    requires WellConfigured(c) && Upheld(c, m)
    ensures Upheld(c, n)
  {
    if !Allowed(c, m, a) then m
    else
      Playable(c, m);
      ActUpheld(c, m, a);
      Happens(c, m, a)
  }

  ghost function Execution(c: M.Config, m: Stage, acts: seq<Act>): (n: Stage)
    requires WellConfigured(c) && Upheld(c, m)
    ensures Upheld(c, n)
    decreases |acts|
  {
    if acts == [] then m else Execution(c, Attempt(c, m, acts[0]), acts[1..])
  }

  ghost function Reached(c: M.Config, acts: seq<Act>): (n: Stage)
    requires WellConfigured(c)
    ensures Upheld(c, n)
  {
    EmptyTracked(c);
    Execution(c, Empty(c), acts)
  }

  // --- safety -----------------------------------------------------------------

  // What the session has of the server's present generation.
  function Present(m: Stage): Option<C.Audio> { if m.client == m.gen then m.audio else None }

  // In every reachable state no party has refused another, over however many
  // generations, and the counts of the present one line up.
  lemma GenerationsAgree(c: M.Config, acts: seq<Act>)
    requires WellConfigured(c)
    ensures var m := Reached(c, acts);
            && (m.fault == NoFault || m.fault == DescriptorLimit)
            && (m.fault == NoFault && m.gen != "" ==>
                  && m.gen in m.terms && m.gen in m.made
                  && m.sender.flow.reserved == |m.made[m.gen]|
                     == ReceivedOf(Present(m)) + |DownSamples(Live(m.gen, m.client, m.down))|
                  && m.sender.flow.played <= PlayedOf(Present(m)) <= ReceivedOf(Present(m)) <= m.sender.flow.reserved
                  && m.sender.flow.reserved - m.sender.flow.played <= 2 * m.terms[m.gen].rate)
  {
    var m := Reached(c, acts);
    hide Reached;
    if m.fault == NoFault && m.gen != "" {
      var ws :| Tracked(c, m, ws);
      PresentAgrees(c, m, ws);
    }
  }

  lemma PresentWorld(c: M.Config, m: Stage, ws: map<string, System>)
    requires Tracked(c, m, ws) && m.gen != ""
    ensures m.gen in m.terms && m.gen in m.made && m.gen in ws
    ensures var w := ws[m.gen];
            && Good(In(c, m, m.gen), w) && In(c, m, m.gen).rate == m.terms[m.gen].rate && In(c, m, m.gen).player == c
            && w.sender == m.sender && w.sender.produced == m.made[m.gen]
            && w.client == Present(m) && w.down == Live(m.gen, m.client, m.down)
  {
    Follow(c, m);
    InStep(m);
    assert World(c, m, m.gen, ws[m.gen]) && m.made.Keys == m.terms.Keys;
    hide Links, Tracked, Good, SetupOk, Live;
  }

  lemma PresentAgrees(c: M.Config, m: Stage, ws: map<string, System>)
    requires Tracked(c, m, ws) && m.gen != ""
    ensures m.gen in m.terms && m.gen in m.made
    ensures m.sender.flow.reserved == |m.made[m.gen]|
            == ReceivedOf(Present(m)) + |DownSamples(Live(m.gen, m.client, m.down))|
    ensures m.sender.flow.played <= PlayedOf(Present(m)) <= ReceivedOf(Present(m)) <= m.sender.flow.reserved
    ensures m.sender.flow.reserved - m.sender.flow.played <= 2 * m.terms[m.gen].rate
  {
    PresentWorld(c, m, ws);
    hide Tracked, Good, Live, Present, DownSamples, In;
    CountsGood(In(c, m, m.gen), ws[m.gen]);
  }

  // What the listener has heard of a generation, the server's present one or a
  // former one, is the start of the batch interpolation of what that generation
  // produced, and at completion all of it. Nothing of another is mixed in.
  lemma HeardIsOwn(c: M.Config, acts: seq<Act>)
    requires WellConfigured(c) && Reached(c, acts).fault == NoFault && Heard(Reached(c, acts)) != ""
    ensures var m := Reached(c, acts); var k := Heard(m);
            && k in m.terms && k in m.made && c.outputRate > 0
            && m.player.heard <= Batch(m.made[k], m.terms[k].rate, c.outputRate)
            && (m.player.view.completed ==> m.player.heard == Batch(m.made[k], m.terms[k].rate, c.outputRate))
  {
    var m := Reached(c, acts);
    hide Reached, Batch;
    var ws :| Tracked(c, m, ws);
    HeardWorld(c, m, ws);
    HeardGood(In(c, m, Heard(m)), ws[Heard(m)]);
  }

  lemma HeardWorld(c: M.Config, m: Stage, ws: map<string, System>)
    requires Tracked(c, m, ws) && Heard(m) != ""
    ensures var k := Heard(m);
            && k in m.terms && k in m.made && k in ws && Good(In(c, m, k), ws[k])
            && ws[k].player == m.player && ws[k].sender.produced == m.made[k]
            && In(c, m, k).rate == m.terms[k].rate && In(c, m, k).player == c
  {
    Follow(c, m);
    assert World(c, m, Heard(m), ws[Heard(m)]) && m.made.Keys == m.terms.Keys;
    hide Links, Tracked, Good, SetupOk, Live;
  }

  // What has been played of the present generation.
  ghost function HeardOfPresent(m: Stage): seq<real> { if Heard(m) == m.gen then m.player.heard else [] }

  // Nothing the listener heard of a former generation counts for the present one.
  lemma NothingUnheardAcross(c: M.Config, acts: seq<Act>)
    requires WellConfigured(c) && Reached(c, acts).fault == NoFault && Reached(c, acts).gen != ""
    ensures var m := Reached(c, acts); var d := m.sender;
            && m.gen in m.terms && d.timelinePlayed == Min(d.flow.played, d.timelineSent)
            && d.flow.played * c.outputRate <= |HeardOfPresent(m)| * m.terms[m.gen].rate
            && d.timelinePlayed * c.outputRate <= |HeardOfPresent(m)| * m.terms[m.gen].rate
  {
    var m := Reached(c, acts);
    hide Reached;
    var ws :| Tracked(c, m, ws);
    PresentWorld(c, m, ws);
    PresentHeard(c, m, ws);
    hide Tracked, Good, In, Present, Live;
    UnheardGood(In(c, m, m.gen), ws[m.gen]);
  }

  lemma PresentHeard(c: M.Config, m: Stage, ws: map<string, System>)
    requires Tracked(c, m, ws) && m.gen != "" && m.gen in ws
    ensures ws[m.gen].player.heard == HeardOfPresent(m)
  {
    PresentKnown(c, m, ws);
    hide *;
    HeardBefore(c, m, m.gen, ws[m.gen]);
    assert HeardOfPresent(m) == if Heard(m) == m.gen then m.player.heard else [];
  }

  lemma PresentKnown(c: M.Config, m: Stage, ws: map<string, System>)
    requires Tracked(c, m, ws) && m.gen != "" && m.gen in ws
    ensures World(c, m, m.gen, ws[m.gen])
    ensures (Heard(m) == "" || Heard(m) in m.played) && (m.gen in m.played ==> m.gen == Heard(m))
  {
    Follow(c, m);
    PresentPlayed(m);
    hide Follows, Posts, Links, World, Inv;
  }

  lemma PresentPlayed(m: Stage)
    requires Follows(m) && m.gen != ""
    ensures m.gen in m.played ==> m.gen == Heard(m)
  {
    if m.gen in m.played {
      InStep(m);
      ReadBefore(m);
    }
    hide Follows;
  }

  lemma ReadBefore(m: Stage)
    requires Follows(m) && m.gen in m.played
    ensures m.gen in m.read && m.gen != "" && (m.client in m.played ==> m.client != "")
  {
    hide End, Once, Announces, Labelled;
  }

  lemma HeardBefore(c: M.Config, m: Stage, k: string, w: System)
    requires World(c, m, k, w) && (Heard(m) == "" || Heard(m) in m.played) && (k in m.played ==> k == Heard(m))
    ensures w.player.heard == if k == Heard(m) then m.player.heard else []
  {
    hide Good, SetupOk, Live, Inv;
  }

  // --- liveness ---------------------------------------------------------------

  // With nothing in flight all parties are in the present generation, and a sender
  // out of credit is answered: quanta of any sizes, one report interval of them,
  // bring a later position than any acknowledged so far.
  lemma NoDeadlockAcross(c: M.Config, acts: seq<Act>, sizes: seq<nat>)
    requires WellConfigured(c)
    requires var m := Reached(c, acts);
             && m.fault == NoFault && m.gen != "" && m.down == [] && m.port == [] && m.up == []
             && m.delivered == |m.player.view.posted| && m.audio.Some? && F.Available(m.sender.flow) <= 0
             && !m.sender.finished && !m.player.view.paused
    requires |sizes| >= K.ReportInterval(c.outputRate) && forall i | 0 <= i < |sizes| :: sizes[i] > 0
    ensures var m := Reached(c, acts);
            && m.gen == m.client == Heard(m) && Inv(m.player.view)
            && exists k | 0 <= k <= |sizes| ::
                 A.Acked(K.Quanta(m.player.view, sizes[..k])).source > A.Acked(m.player.view).source
  {
    hide Happens, PlayerOk, ReportsOk, SessionOk;
    var m := Reached(c, acts);
    hide Reached;
    var ws :| Tracked(c, m, ws);
    PresentWorld(c, m, ws);
    QuietWorld(c, m, ws);
    StarvedIsBlocked(In(c, m, m.gen), ws[m.gen]);
    K.AckArrives(m.player.view, sizes);
  }

  lemma QuietWorld(c: M.Config, m: Stage, ws: map<string, System>)
    requires Tracked(c, m, ws) && m.gen != "" && m.down == [] && m.port == [] && m.up == []
    requires m.delivered == |m.player.view.posted|
    ensures m.gen == m.client == Heard(m) && m.gen in ws && Quiet(ws[m.gen]) && ws[m.gen].player == m.player
    ensures Inv(m.player.view) && A.AckOk(m.player.view)
  {
    Follow(c, m);
    assert m.gen == m.client == Heard(m) && m.start <= |m.player.view.posted|;
    Look(c, m, m.gen, ws[m.gen]);
    assert World(c, m, m.gen, ws[m.gen]);
    hide Good, SetupOk;
  }
}
