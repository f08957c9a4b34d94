// Session and player over many generations: what they read of one leaves every
// other as it would be alone, and a new generation finds both as if it were the first.
module GenerationClient {
  import opened Options
  import C = Client
  import M = PlayerModel
  import R = PlayerRuns
  import A = PlayerAck
  import opened Protocol
  import opened ProtocolInvariant
  import opened ProtocolSteps
  import opened ProtocolGenerations
  import opened GenerationInvariant

  // --- the session enters a generation, or leaves one -------------------------

  // One mark at the end of the player's queue.
  lemma PortFollows(m: Stage, d: Signal<R.Event>, n: Stage)
    requires Labelled(d) && End(Heard(m), m.port) == m.client && Once(m.port, m.played)
    requires (forall k | Announces(m.port, k) :: k in m.read) && forall i | 0 <= i < |m.port| :: Labelled(m.port[i])
    requires d.On? ==> d.id !in m.played && !Announces(m.port, d.id)
    requires n.port == m.port + [d] && n.player == m.player && n.played == m.played && n.client == Turn(m.client, d)
    requires m.read <= n.read && (d.On? ==> d.id in n.read)
    ensures End(Heard(n), n.port) == n.client && Once(n.port, n.played)
    ensures (forall k | Announces(n.port, k) :: k in n.read) && forall i | 0 <= i < |n.port| :: Labelled(n.port[i])
  {
    EndAppend(Heard(m), m.port, d);
    OnceAppend(m.port, m.played, d);
    forall k | Announces(n.port, k) ensures k in n.read { AnnouncesAppend(m.port, d, k); }
    hide End, Once, Announces, Labelled;
  }

  lemma MarkFollows(c: M.Config, m: Stage)
    requires Links(c, m) && m.down != [] && !m.down[0].Item?
    ensures Follows(Hears(c, m))
  {
    hide Fixed, SessionReceive;
    var n, id := Hears(c, m), m.down[0].id;
    assert Announces(m.down, id) || m.down[0].Off?;
    assert forall k | Announces(m.down[1..], k) :: Announces(m.down, k);
    hide Posts, Fixed;
    PortFollows(m, if m.down[0].On? then On(id) else Off(id), n);
    hide Announces, Labelled;
  }

  lemma MarkLinks(c: M.Config, m: Stage)
    requires Links(c, m) && m.down != [] && !m.down[0].Item?
    ensures Links(c, Hears(c, m))
  {
    var n := Hears(c, m);
    MarkFollows(c, m);
    hide Follows, R.RunOk, A.AckOk, SetupOk;
    FixedSame(c, m, n);
    PostsSame(m, n);
  }

  // Read of for the first time, a generation finds no audio of its own.
  lemma OnWorld(c: M.Config, m: Stage, k: string, w: System)
    requires m.down != [] && m.down[0].On? && Follows(m) && k in m.terms && World(c, m, k, w)
    ensures World(c, Hears(c, m), k, w)
  {
    var n, id := Hears(c, m), m.down[0].id;
    assert In(c, n, k) == In(c, m, k) && id !in m.read && m.client != id && m.played <= m.read;
    assert Heard(m) == "" || Heard(m) in m.played;
    assert id != "" && (m.client == "" || m.client in m.read) && k != "";
    hide Good, SetupOk, Follows;
    LiveAppend(k, Heard(m), m.port, On(id));
  }

  lemma OffWorld(c: M.Config, m: Stage, k: string, w: System)
    requires m.down != [] && m.down[0].Off? && Follows(m) && k in m.terms && World(c, m, k, w)
    ensures World(c, Hears(c, m), k, w)
  {
    hide M.Post, PauseEvent;
    var n, id := Hears(c, m), m.down[0].id;
    assert In(c, n, k) == In(c, m, k) && k != "" && (m.client == "" || m.client in m.read);
    hide Good, SetupOk, Follows;
    LiveAppend(k, Heard(m), m.port, Off(id));
  }

  // --- the session reads a message --------------------------------------------

  lemma {:induction false} LabelledAppend(port: seq<Signal<R.Event>>, id: string, xs: seq<R.Event>)
    requires forall i | 0 <= i < |port| :: Labelled(port[i])
    requires forall i | 0 <= i < |xs| :: Labelled(Item(id, xs[i]))
    ensures forall i | 0 <= i < |port + Tagged(id, xs)| :: Labelled((port + Tagged(id, xs))[i])
  {
  }

  // More messages of one generation in the port, and more for the server.
  ghost function Passed(m: Stage, id: string, audio: Option<C.Audio>, events: seq<R.Event>, told: seq<C.Up>): Stage
    requires m.down != []
  {
    m.(down := m.down[1..], audio := audio, port := m.port + Tagged(id, events), up := m.up + Addressed(id, told))
  }

  lemma PassedFollows(m: Stage, id: string, audio: Option<C.Audio>, events: seq<R.Event>, told: seq<C.Up>)
    requires Follows(m) && m.down != [] && m.down[0].Item?
    requires (forall i | 0 <= i < |events| :: Labelled(Item(id, events[i]))) && (told == [] || id in m.read)
    ensures Follows(Passed(m, id, audio, events, told))
  {
    assert forall k | Announces(m.down[1..], k) :: Announces(m.down, k);
    TaggedEnd("", Heard(m), m.port, id, events);
    TaggedOnce(m.port, m.played, id, events);
    LabelledAppend(m.port, id, events);
    hide Announces, Labelled, Live;
  }

  lemma PassedLinks(c: M.Config, m: Stage, id: string, audio: Option<C.Audio>, events: seq<R.Event>, told: seq<C.Up>)
    requires Links(c, m) && m.down != [] && m.down[0].Item?
    requires (forall i | 0 <= i < |events| :: Labelled(Item(id, events[i]))) && (told == [] || id in m.read)
    ensures Links(c, Passed(m, id, audio, events, told))
  {
    var n := Passed(m, id, audio, events, told);
    PassedFollows(m, id, audio, events, told);
    hide Follows, R.RunOk, A.AckOk, SetupOk, Labelled;
    FixedSame(c, m, n);
    PostsSame(m, n);
  }

  // To another generation it makes no difference, whoever it is for.
  lemma PassedOther(c: M.Config, m: Stage, id: string, audio: Option<C.Audio>, events: seq<R.Event>, told: seq<C.Up>,
                    k: string, w: System)
    requires m.down != [] && m.down[0].Item? && End(Heard(m), m.port) == m.client && World(c, m, k, w)
    requires k != id || k != m.client
    requires m.client == id || (told == [] && audio == m.audio)
    requires m.down[0].id == id
    ensures World(c, Passed(m, id, audio, events, told), k, w)
  {
    hide PlayerOk;
    assert In(c, Passed(m, id, audio, events, told), k) == In(c, m, k);
    hide Good, SetupOk;
    UpAppend(k, m.up, Addressed(id, told));
    UpAddressed(k, id, told);
    TaggedEnd(k, Heard(m), m.port, id, events);
    assert told == [] ==> Addressed(id, told) == [];
    hide UpOf, End;
  }

  // The generation it is for moves as it would alone.
  lemma PassedOwn(c: M.Config, m: Stage, audio: Option<C.Audio>, events: seq<R.Event>, told: seq<C.Up>, w: System)
    requires m.down != [] && m.down[0].Item? && m.down[0].id == m.client && End(Heard(m), m.port) == m.client
    requires World(c, m, m.client, w) && w.down != []
    requires Good(In(c, m, m.client),
                  w.(down := w.down[1..], client := audio, port := w.port + events, up := w.up + told))
    ensures World(c, Passed(m, m.client, audio, events, told), m.client,
                  w.(down := w.down[1..], client := audio, port := w.port + events, up := w.up + told))
  {
    hide PlayerOk;
    var id := m.client;
    assert In(c, Passed(m, id, audio, events, told), id) == In(c, m, id);
    hide Good, SetupOk;
    UpAppend(id, m.up, Addressed(id, told));
    UpAddressed(id, id, told);
    TaggedEnd(id, Heard(m), m.port, id, events);
    hide UpOf, End;
  }

  // What the session does with a message depends on its audio alone.
  lemma SessionLocal(u: Setup, a: Option<C.Audio>, w: System, x: System, message: Down)
    requires w.client == x.client == a && w.down != [] && w.down[0] == message && x.down == [message]
    requires x.port == [] && x.up == [] && w.fault == x.fault == NoFault
    requires SessionReceive(u, w).fault == NoFault
    ensures var t := SessionReceive(u, x);
            && t.fault == NoFault
            && SessionReceive(u, w) == w.(down := w.down[1..], client := t.client, port := w.port + t.port,
                                          up := w.up + t.up)
            && x.(down := [], client := t.client, port := t.port, up := t.up) == t
            && (u.generation != "" ==> forall i | 0 <= i < |t.port| :: Labelled(Item(u.generation, t.port[i])))
  {
    hide C.PacketReceived, C.ChunkStarted;
  }

  lemma HearsOwn(c: M.Config, m: Stage, w: System)
    requires m.down != [] && m.down[0].Item? && m.down[0].id == m.client != "" && World(c, m, m.client, w)
    ensures w.down != []
    ensures var u := In(c, m, m.client); var t := SessionReceive(u, Alone(m).(down := [m.down[0].body]));
            && t.fault == NoFault
            && (forall i | 0 <= i < |t.port| :: Labelled(Item(m.client, t.port[i])))
            && Good(u, w.(down := w.down[1..], client := t.client, port := w.port + t.port, up := w.up + t.up))
  {
    var u := In(c, m, m.client);
    assert w.down == [m.down[0].body] + Live(m.client, m.client, m.down[1..]);
    SessionReceiveGood(u, w);
    assert u.generation == m.client && w.client == m.audio;
    hide Good, SetupOk, SessionReceive, World;
    SessionLocal(u, m.audio, w, Alone(m).(down := [m.down[0].body]), m.down[0].body);
  }

  // --- reports ----------------------------------------------------------------

  lemma SkipLinks(c: M.Config, m: Stage)
    requires Links(c, m) && m.delivered < |m.player.view.posted|
    ensures Links(c, m.(delivered := m.delivered + 1))
  {
    var n := m.(delivered := m.delivered + 1);
    hide R.RunOk, A.AckOk, SetupOk, Once, End, Announces, Labelled;
    FixedSame(c, m, n);
    PostsSame(m, n);
  }

  // A report of a former generation was none of this one's.
  lemma SkipWorld(c: M.Config, m: Stage, k: string, w: System)
    requires Posts(m) && m.delivered < |m.player.view.posted| && k != "" && World(c, m, k, w)
    requires m.client == "" || m.player.view.posted[m.delivered].generation != m.client
    ensures World(c, m.(delivered := m.delivered + 1), k, w)
  {
    assert In(c, m.(delivered := m.delivered + 1), k) == In(c, m, k);
    assert k == Heard(m) == m.client ==> m.delivered < m.start;
    hide Good, SetupOk, Posts;
  }

  // A report the session takes is one of the generation both are in.
  lemma PassesPresent(m: Stage)
    requires Follows(m) && Posts(m) && m.delivered < |m.player.view.posted|
    requires m.client != "" && m.player.view.posted[m.delivered].generation == m.client
    ensures m.client == Heard(m) && m.delivered >= m.start
  {
    InStep(m);
    hide Follows;
  }

  lemma DeliverLocal(m: Stage, w: System)
    requires w.player == m.player && w.delivered == m.delivered && w.client == m.audio && w.fault == NoFault
    requires CanDeliver(w) && Deliver(w).fault == NoFault
    ensures var t := Deliver(Alone(m));
            && t.fault == NoFault && t.delivered == m.delivered + 1
            && Deliver(w) == w.(delivered := w.delivered + 1, client := t.client, up := w.up + t.up)
  {
  }

  ghost function Told(m: Stage, audio: Option<C.Audio>, told: seq<C.Up>): Stage {
    m.(delivered := m.delivered + 1, audio := audio, up := m.up + Addressed(m.client, told))
  }

  lemma ToldLinks(c: M.Config, m: Stage, audio: Option<C.Audio>, told: seq<C.Up>)
    requires Links(c, m) && m.delivered < |m.player.view.posted| && m.client != ""
    ensures Links(c, Told(m, audio, told))
  {
    var n := Told(m, audio, told);
    hide R.RunOk, A.AckOk, SetupOk, Once, End, Announces, Labelled;
    FixedSame(c, m, n);
    PostsSame(m, n);
  }

  lemma ToldOwn(c: M.Config, m: Stage, audio: Option<C.Audio>, told: seq<C.Up>, w: System)
    requires m.client == Heard(m) && m.delivered >= m.start && World(c, m, m.client, w)
    requires Good(In(c, m, m.client), w.(delivered := w.delivered + 1, client := audio, up := w.up + told))
    ensures World(c, Told(m, audio, told), m.client,
                  w.(delivered := w.delivered + 1, client := audio, up := w.up + told))
  {
    assert In(c, Told(m, audio, told), m.client) == In(c, m, m.client);
    assert m.client in m.played ==> w.delivered == m.delivered;
    hide Good, SetupOk, Live;
    UpAppend(m.client, m.up, Addressed(m.client, told));
    UpAddressed(m.client, m.client, told);
  }

  lemma ToldOther(c: M.Config, m: Stage, audio: Option<C.Audio>, told: seq<C.Up>, k: string, w: System)
    requires k != m.client && World(c, m, k, w)
    ensures World(c, Told(m, audio, told), k, w)
  {
    assert In(c, Told(m, audio, told), k) == In(c, m, k);
    hide Good, SetupOk, Live;
    UpAppend(k, m.up, Addressed(m.client, told));
    UpAddressed(k, m.client, told);
  }
}
