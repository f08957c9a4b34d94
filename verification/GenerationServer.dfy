// The server's side of many generations: what it begins, ends, writes and reads
// leaves every generation as it would be alone.
module GenerationServer {
  import opened Arithmetic
  import opened Options
  import M = PlayerModel
  import opened PlayerInvariant
  import R = PlayerRuns
  import A = PlayerAck
  import opened Protocol
  import opened ProtocolInvariant
  import opened ProtocolSteps
  import opened ProtocolRuns
  import opened ProtocolGenerations
  import opened GenerationInvariant

  // --- beginning a generation -------------------------------------------------

  lemma StartFixed(c: M.Config, m: Stage, id: string, t: Terms)
    requires Fixed(c, m) && id !in m.terms && SetupOk(SetupOf(c, id, t))
    ensures Fixed(c, Begins(c, m, id, t))
  {
    var n := Begins(c, m, id, t);
    hide Init, R.RunOk, A.AckOk, SetupOk;
    forall k | k in n.terms ensures SetupOk(In(c, n, k)) {
      assert In(c, n, k) == if k == id then SetupOf(c, id, t) else In(c, m, k);
    }
  }

  lemma StartFollows(c: M.Config, m: Stage, id: string, t: Terms)
    requires Links(c, m) && id !in m.terms && SetupOk(SetupOf(c, id, t))
    ensures !Announces(m.down, id) && id !in m.read && id != ""
    ensures Links(c, Begins(c, m, id, t))
  {
    assert id != "" && Follows(m) && !Announces(m.down, id) && id !in m.read;
    hide Init, Posts, Fixed, SetupOk, Follows, Announces;
    DownFollows(m, On(id), Begins(c, m, id, t));
    PostsSame(m, Begins(c, m, id, t));
    StartFixed(c, m, id, t);
  }

  // To the other generations nothing changes.
  lemma StartOther(c: M.Config, m: Stage, id: string, t: Terms, k: string, w: System)
    requires k in m.terms && World(c, m, k, w) && id !in m.terms && SetupOk(SetupOf(c, id, t))
    ensures World(c, Begins(c, m, id, t), k, w)
  {
    hide PlayerOk;
    var n := Begins(c, m, id, t);
    assert In(c, n, k) == In(c, m, k);
    LiveAppend(k, m.client, m.down, On(id));
    hide Good, Init, Live, SetupOk;
  }

  // Nothing in any queue speaks of a generation that has not begun.
  lemma NotBegun(m: Stage, id: string)
    requires Follows(m) && id !in m.terms && id != ""
    ensures id != m.gen && id != m.client && id != Heard(m) && id !in m.read && id !in m.played
    ensures Live(id, m.client, m.down + [On(id)]) == [] && Live(id, Heard(m), m.port) == [] && UpOf(id, m.up) == []
  {
    assert !Announces(m.down, id) && !Announces(m.port, id);
    assert forall i | 0 <= i < |m.up| :: m.up[i].0 != id;
    assert id != m.gen && id != m.client && id != Heard(m);
    hide Follows;
    LiveAppend(id, m.client, m.down, On(id));
    Over(id, m.client, m.down);
    Over(id, Heard(m), m.port);
    UpNone(id, m.up);
  }

  lemma StartWorld(c: M.Config, m: Stage, id: string, t: Terms)
    requires Links(c, m) && id !in m.terms && SetupOk(SetupOf(c, id, t))
    ensures World(c, Begins(c, m, id, t), id, Init(SetupOf(c, id, t)))
  {
    var n, w := Begins(c, m, id, t), Init(SetupOf(c, id, t));
    assert Follows(m) && id != "";
    hide Links, Good, Init, SetupOk, Live, UpOf, Announces, Follows;
    NotBegun(m, id);
    InitGood(SetupOf(c, id, t));
    InitBare(SetupOf(c, id, t));
    assert In(c, n, id) == SetupOf(c, id, t);
  }

  lemma InitBare(u: Setup)
    requires SetupOk(u)
    ensures var s := Init(u);
            && s.fault == NoFault && s.down == [] && s.port == [] && s.up == [] && s.client == None && s.delivered == 0
            && s.sender.produced == []
  {
    hide Inv;
  }

  lemma StartTracked(c: M.Config, m: Stage, ws: map<string, System>, id: string, t: Terms)
    requires Tracked(c, m, ws) && id !in m.terms && SetupOk(SetupOf(c, id, t))
    ensures Tracked(c, Begins(c, m, id, t), ws[id := Init(SetupOf(c, id, t))])
  {
    hide Links, World, Init;
    StartFollows(c, m, id, t);
    StartWorld(c, m, id, t);
    forall k | k in m.terms && k != id ensures World(c, Begins(c, m, id, t), k, ws[k]) {
      StartOther(c, m, id, t, k, ws[k]);
    }
  }

  // --- ending one, and packets of a former one --------------------------------

  lemma StopFollows(c: M.Config, m: Stage)
    requires Links(c, m) && m.gen != ""
    ensures Links(c, Ends(m))
  {
    DownFollows(m, Off(m.gen), Ends(m));
    hide Follows;
    PostsSame(m, Ends(m));
  }

  lemma StopWorld(c: M.Config, m: Stage, k: string, w: System)
    requires m.gen != "" && k in m.terms && "" !in m.terms && World(c, m, k, w)
    ensures World(c, Ends(m), k, w)
  {
    assert In(c, Ends(m), k) == In(c, m, k);
    hide Good, SetupOk;
    LiveAppend(k, m.client, m.down, Off(m.gen));
    hide Live;
  }

  ghost function Strays(m: Stage, id: string, message: Down): Stage { m.(down := m.down + [Item(id, message)]) }

  lemma StrayFollows(c: M.Config, m: Stage, id: string, message: Down)
    requires Links(c, m) && id in m.terms
    ensures Links(c, Strays(m, id, message))
  {
    DownFollows(m, Item(id, message), Strays(m, id, message));
    hide Follows;
    PostsSame(m, Strays(m, id, message));
  }

  lemma StrayWorld(c: M.Config, m: Stage, id: string, message: Down, k: string, w: System)
    requires id != m.gen && End(m.client, m.down) == m.gen && World(c, m, k, w)
    ensures World(c, Strays(m, id, message), k, w)
  {
    assert In(c, Strays(m, id, message), k) == In(c, m, k);
    hide Good, SetupOk;
    LiveAppend(k, m.client, m.down, Item(id, message));
    hide Live;
  }

  // --- the packet loop of the present one -------------------------------------

  // What a loop does depends on its sender alone, and adds to the queue.
  lemma LoopLocal(u: Setup, m: Stage, w: System, move: Move)
    requires u.player.outputRate > 0 && Inv(w.player.view) && w.fault == NoFault && OfLoop(move) && w.sender == m.sender
    requires Inv(m.player.view) && Enabled(u, Alone(m), move)
    ensures Enabled(u, w, move)
    ensures var t := Next(u, Alone(m), move);
            t.fault == NoFault && Next(u, w, move) == w.(sender := t.sender, down := w.down + t.down)
  {
    hide Inv;
  }

  lemma LoopGood(u: Setup, m: Stage, w: System, move: Move)
    requires Good(u, w) && w.fault == NoFault && OfLoop(move) && w.sender == m.sender
    requires Inv(m.player.view) && Enabled(u, Alone(m), move)
    ensures var t := Next(u, Alone(m), move); Good(u, w.(sender := t.sender, down := w.down + t.down))
  {
    assert u.player.outputRate > 0 && Inv(w.player.view);
    hide Good, Next, Enabled, Inv;
    LoopLocal(u, m, w, move);
    NextGood(u, w, move);
  }

  lemma WroteFollows(m: Stage, sender: Sender, more: seq<Down>)
    requires Follows(m) && m.gen != ""
    ensures Follows(Wrote(m, sender, more))
  {
    TaggedEnd("", m.client, m.down, m.gen, more);
    TaggedOnce(m.down, m.read, m.gen, more);
    hide End, Once, Announces, Labelled, Live;
  }

  lemma LoopFollows(c: M.Config, m: Stage, sender: Sender, more: seq<Down>)
    requires Links(c, m) && m.gen != ""
    ensures Links(c, Wrote(m, sender, more))
  {
    var n := Wrote(m, sender, more);
    WroteFollows(m, sender, more);
    assert m.gen in m.terms;
    hide R.RunOk, A.AckOk, SetupOk, Follows;
    assert m.gen in m.made && n.made.Keys == m.made.Keys;
    FixedSame(c, m, n);
    PostsSame(m, n);
  }

  // The generation whose loop it is moves as it would alone.
  lemma LoopOwn(c: M.Config, m: Stage, w: System, sender: Sender, more: seq<Down>)
    requires m.gen != "" && End(m.client, m.down) == m.gen && World(c, m, m.gen, w)
    requires Good(In(c, m, m.gen), w.(sender := sender, down := w.down + more))
    ensures World(c, Wrote(m, sender, more), m.gen, w.(sender := sender, down := w.down + more))
  {
    assert In(c, Wrote(m, sender, more), m.gen) == In(c, m, m.gen);
    hide Good, SetupOk, Live;
    TaggedEnd(m.gen, m.client, m.down, m.gen, more);
  }

  lemma LoopOther(c: M.Config, m: Stage, k: string, w: System, sender: Sender, more: seq<Down>)
    requires k != m.gen && World(c, m, k, w)
    ensures World(c, Wrote(m, sender, more), k, w)
  {
    assert In(c, Wrote(m, sender, more), k) == In(c, m, k);
    hide Good, SetupOk, Live;
    TaggedEnd(k, m.client, m.down, m.gen, more);
  }

  // --- what the server is told ------------------------------------------------

  ghost function Informs(m: Stage, sender: Sender): Stage
    requires m.up != []
  {
    m.(up := m.up[1..], sender := sender)
  }

  lemma InformsFollows(c: M.Config, m: Stage, sender: Sender)
    requires Links(c, m) && m.up != []
    ensures Links(c, Informs(m, sender))
  {
    var n := Informs(m, sender);
    hide R.RunOk, A.AckOk, End, Once, Announces, Labelled, SetupOk;
    FixedSame(c, m, n);
    PostsSame(m, n);
  }

  // What the sender does with a message depends on its own state alone.
  lemma SenderLocal(m: Stage, w: System)
    requires w.sender == m.sender && w.up != [] && m.up != [] && w.up[0] == m.up[0].1 && w.fault == NoFault
    requires SenderReceive(w).fault == NoFault
    ensures var t := SenderReceive(Alone(m).(up := [m.up[0].1]));
            && t.fault == NoFault && SenderReceive(w) == w.(up := w.up[1..], sender := t.sender)
            && t.sender.produced == m.sender.produced
  {
  }

  lemma InformsGood(u: Setup, m: Stage, w: System)
    requires Good(u, w) && w.sender == m.sender && m.up != [] && w.up == UpOf(m.gen, m.up) && m.up[0].0 == m.gen
    requires w.fault == NoFault
    ensures var t := SenderReceive(Alone(m).(up := [m.up[0].1]));
            && t.fault == NoFault && t.sender.produced == m.sender.produced
            && w.up != [] && Good(u, w.(up := w.up[1..], sender := t.sender))
  {
    hide Good, SenderReceive;
    SenderReceiveGood(u, w);
    SenderLocal(m, w);
  }

  lemma InformsOwn(c: M.Config, m: Stage, w: System, sender: Sender)
    requires m.up != [] && m.up[0].0 == m.gen && World(c, m, m.gen, w) && sender.produced == m.sender.produced
    requires w.up != [] && Good(In(c, m, m.gen), w.(up := w.up[1..], sender := sender))
    ensures World(c, Informs(m, sender), m.gen, w.(up := w.up[1..], sender := sender))
  {
    assert In(c, Informs(m, sender), m.gen) == In(c, m, m.gen);
    hide Good, SetupOk, Live;
  }

  lemma InformsOther(c: M.Config, m: Stage, k: string, w: System, sender: Sender)
    requires m.up != [] && World(c, m, k, w) && (k == m.gen ==> m.up[0].0 != m.gen && sender == m.sender)
    ensures World(c, Informs(m, sender), k, w)
  {
    assert In(c, Informs(m, sender), k) == In(c, m, k);
    hide Good, SetupOk, Live;
  }
}
