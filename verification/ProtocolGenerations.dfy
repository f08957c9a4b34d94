// Generations one after another on the same channels: while the server answers in
// one, the session may still read messages of a former one, the player may still
// play one before that, and writers of any of them may still put packets on the
// wire. Every message carries its generation, and each party heeds those of its own.
module ProtocolGenerations {
  import opened Options
  import C = Client
  import F = Flow
  import M = PlayerModel
  import opened PlayerInvariant
  import R = PlayerRuns
  import opened Protocol

  // --- queues that tell generations apart -------------------------------------

  // From here on id counts, from here on it no longer does, or a message of it.
  datatype Signal<T> = On(id: string) | Off(id: string) | Item(id: string, body: T)

  // Which generation a reader is in after one mark; "" is none.
  function Turn<T>(c: string, m: Signal<T>): string {
    match m
    case On(id) => id
    case Off(id) => if id == c then "" else c
    case Item(_, _) => c
  }

  function End<T>(c: string, q: seq<Signal<T>>): string
    decreases |q|
  {
    if q == [] then c else End(Turn(c, q[0]), q[1..])
  }

  // The messages of k that a reader who is in c now will heed.
  function Live<T>(k: string, c: string, q: seq<Signal<T>>): seq<T>
    decreases |q|
  {
    if q == [] then []
    else (if q[0].Item? && q[0].id == k == c then [q[0].body] else []) + Live(k, Turn(c, q[0]), q[1..])
  }

  // Each generation is announced once, and none that has been before.
  predicate Once<T>(q: seq<Signal<T>>, seen: set<string>)
    decreases |q|
  {
    q == [] || (if q[0].On? then q[0].id !in seen && Once(q[1..], seen + {q[0].id}) else Once(q[1..], seen))
  }

  predicate Announces<T>(q: seq<Signal<T>>, id: string)
    decreases |q|
  {
    q != [] && ((q[0].On? && q[0].id == id) || Announces(q[1..], id))
  }

  lemma {:induction false} EndAppend<T>(c: string, q: seq<Signal<T>>, m: Signal<T>)
    ensures End(c, q + [m]) == Turn(End(c, q), m)
    decreases |q|
  {
    if q == [] {
      assert (q + [m])[1..] == [];
    } else {
      assert (q + [m])[1..] == q[1..] + [m];
      EndAppend(Turn(c, q[0]), q[1..], m);
    }
  }

  lemma {:induction false} LiveAppend<T>(k: string, c: string, q: seq<Signal<T>>, m: Signal<T>)
    ensures Live(k, c, q + [m]) == Live(k, c, q) + if m.Item? && m.id == k == End(c, q) then [m.body] else []
    decreases |q|
  {
    if q == [] {
      assert (q + [m])[1..] == [];
    } else {
      assert (q + [m])[1..] == q[1..] + [m];
      LiveAppend(k, Turn(c, q[0]), q[1..], m);
      var head := if q[0].Item? && q[0].id == k == c then [q[0].body] else [];
      var last := if m.Item? && m.id == k == End(c, q) then [m.body] else [];
      assert head + (Live(k, Turn(c, q[0]), q[1..]) + last) == (head + Live(k, Turn(c, q[0]), q[1..])) + last;
    }
  }

  // A generation that a reader is not in and that is not announced any more is over.
  lemma {:induction false} Over<T>(k: string, c: string, q: seq<Signal<T>>)
    requires k != "" && c != k && !Announces(q, k)
    ensures End(c, q) != k && Live(k, c, q) == []
    decreases |q|
  {
    if q != [] { Over(k, Turn(c, q[0]), q[1..]); }
  }

  lemma {:induction false} SeenOver<T>(k: string, q: seq<Signal<T>>, seen: set<string>)
    requires Once(q, seen) && k in seen
    ensures !Announces(q, k)
    decreases |q|
  {
    if q != [] { SeenOver(k, q[1..], if q[0].On? then seen + {q[0].id} else seen); }
  }

  lemma {:induction false} OnceAppend<T>(q: seq<Signal<T>>, seen: set<string>, m: Signal<T>)
    requires Once(q, seen) && (m.On? ==> m.id !in seen && !Announces(q, m.id))
    ensures Once(q + [m], seen)
    decreases |q|
  {
    if q == [] {
      assert (q + [m])[1..] == [];
    } else {
      assert (q + [m])[1..] == q[1..] + [m];
      OnceAppend(q[1..], if q[0].On? then seen + {q[0].id} else seen, m);
    }
  }

  lemma {:induction false} AnnouncesAppend<T>(q: seq<Signal<T>>, m: Signal<T>, k: string)
    ensures Announces(q + [m], k) <==> Announces(q, k) || (m.On? && m.id == k)
    decreases |q|
  {
    if q == [] {
      assert (q + [m])[1..] == [];
    } else {
      assert (q + [m])[1..] == q[1..] + [m];
      AnnouncesAppend(q[1..], m, k);
    }
  }

  // --- the parties ------------------------------------------------------------

  datatype Terms = Terms(rate: nat, negotiated: bool)

  // gen, client and the player's own generation are where server, session and
  // player are. sender and audio belong to gen and client. The rest is history:
  // the terms of every generation and what it produced, who has been where, and
  // how many reports were posted before the player's present generation.
  datatype Stage = Stage(gen: string, sender: Sender, down: seq<Signal<Down>>, client: string, audio: Option<C.Audio>,
                         port: seq<Signal<R.Event>>, player: R.Run, delivered: nat, up: seq<(string, C.Up)>,
                         fault: Fault, terms: map<string, Terms>, made: map<string, seq<real>>,
                         read: set<string>, played: set<string>, start: nat)

  function SetupOf(c: M.Config, id: string, t: Terms): Setup { Setup(c, id, t.rate, t.negotiated) }

  ghost function Empty(c: M.Config): Stage
    requires WellConfigured(c)
  {
    InitialOk(c);
    Stage("", Sender(F.Fresh(1000), false, -1, -1, 0, 0, 0, true, []), [], "", None, [], R.Run(M.Initial(c), []), 0, [],
          NoFault, map[], map[], {}, {}, 0)
  }

  // One message handed to one party, by the rules of a single generation.
  function Alone(m: Stage): System { System(m.sender, [], m.audio, [], m.player, m.delivered, [], NoFault) }

  function Tagged<T>(id: string, q: seq<T>): seq<Signal<T>> {
    seq(|q|, i requires 0 <= i < |q| => Item(id, q[i]))
  }

  function Addressed(id: string, q: seq<C.Up>): seq<(string, C.Up)> {
    seq(|q|, i requires 0 <= i < |q| => (id, q[i]))
  }

  function TermsOf(m: Stage, id: string): Terms { if id in m.terms then m.terms[id] else Terms(0, false) }

  function In(c: M.Config, m: Stage, id: string): Setup { SetupOf(c, id, TermsOf(m, id)) }

  // A port message as the worklet receives it.
  function Posted(e: Signal<R.Event>): R.Event {
    match e
    case On(id) => R.SetGenerationEvent(id)
    case Off(id) => R.ClearEvent(id)
    case Item(_, event) => event
  }

  // The server begins a generation, whatever runs, or ends the one that runs; the
  // packet loop of the current one goes on; a loop of another has one more message.
  datatype Act = Start(id: string, terms: Terms) | Stop | Own(move: Move) | Stray(id: string, message: Down)
    | SenderTakes | SessionTakes | ReportTaken | PlayerTakes | Render(frames: nat) | Command(event: R.Event)

  predicate OfLoop(move: Move) { move.BeginMove? || move.SendMove? || move.RecordMove? || move.FinishMove? }

  ghost predicate Allowed(c: M.Config, m: Stage, a: Act)
    requires c.outputRate > 0
  {
    && m.fault == NoFault
    && match a
       case Start(id, t) => id !in m.terms && SetupOk(SetupOf(c, id, t))
       case Stop => m.gen != ""
       case Own(move) => m.gen != "" && OfLoop(move) && Enabled(In(c, m, m.gen), Alone(m), move)
       case Stray(id, message) => id in m.terms && id != m.gen && !message.GenerationDone?
       case SenderTakes => m.up != []
       case SessionTakes => m.down != []
       case ReportTaken => m.delivered < |m.player.view.posted|
       case PlayerTakes => m.port != []
       case Render(_) => true
       case Command(e) => m.client != "" && PauseEvent(In(c, m, m.client), e)
  }

  ghost function Begins(c: M.Config, m: Stage, id: string, t: Terms): Stage
    requires SetupOk(SetupOf(c, id, t))
  {
    var sender := Init(SetupOf(c, id, t)).sender;
    m.(gen := id, sender := sender, down := m.down + [On(id)], terms := m.terms[id := t], made := m.made[id := []])
  }

  function Ends(m: Stage): Stage { m.(gen := "", down := m.down + [Off(m.gen)]) }

  ghost function Loops(c: M.Config, m: Stage, move: Move): Stage
    requires c.outputRate > 0 && Inv(m.player.view) && Enabled(In(c, m, m.gen), Alone(m), move)
  {
    var t := Next(In(c, m, m.gen), Alone(m), move);
    Wrote(m, t.sender, t.down)
  }

  function Wrote(m: Stage, sender: Sender, more: seq<Down>): Stage {
    m.(sender := sender, down := m.down + Tagged(m.gen, more), made := m.made[m.gen := sender.produced])
  }

  // A snapshot or position of another generation is ignored.
  function Heeds(m: Stage): Stage
    requires m.up != []
  {
    var rest := m.(up := m.up[1..]);
    if m.up[0].0 != m.gen then rest
    else
      var t := SenderReceive(Alone(m).(up := [m.up[0].1]));
      rest.(sender := t.sender, fault := t.fault)
  }

  // A new generation replaces the former one, a cancelled one is dropped, and what
  // belongs to another is not handled. The worklet hears of all of it, formats included.
  function Hears(c: M.Config, m: Stage): Stage
    requires m.down != []
  {
    var rest := m.(down := m.down[1..]);
    match m.down[0]
    case On(id) => rest.(client := id, audio := None, port := m.port + [On(id)], read := m.read + {id})
    case Off(id) =>
      rest.(client := if id == m.client then "" else m.client, audio := if id == m.client then None else m.audio,
            port := m.port + [Off(id)])
    case Item(id, message) =>
      if id != m.client || id == "" then
        rest.(port := m.port + if message.ChunkStarted? then [Item(id, R.FormatEvent(id, TermsOf(m, id).rate))] else [])
      else
        var t := SessionReceive(In(c, m, id), Alone(m).(down := [message]));
        rest.(audio := t.client, port := m.port + Tagged(id, t.port), up := m.up + Addressed(id, t.up),
              fault := t.fault)
  }

  // A report of another generation, or of one without audio, is not passed on.
  function Passes(m: Stage): Stage
    requires m.delivered < |m.player.view.posted|
  {
    if m.client == "" || m.player.view.posted[m.delivered].generation != m.client then m.(delivered := m.delivered + 1)
    else
      var t := Deliver(Alone(m));
      m.(delivered := t.delivered, audio := t.client, up := m.up + Addressed(m.client, t.up), fault := t.fault)
  }

  // The worklet itself tells generations apart.
  ghost function Obeys(m: Stage): Stage
    requires m.port != [] && Inv(m.player.view)
  {
    var next := R.Advance(m.player, Posted(m.port[0]));
    var rest := m.(port := m.port[1..], player := next);
    match m.port[0]
    case On(id) => rest.(played := m.played + {id}, start := |next.view.posted|)
    case Off(_) => rest
    case Item(_, _) =>
      rest.(fault := if next.view.stream.epoch == m.player.view.stream.epoch then NoFault
                     else if |m.player.view.live| == M.DESCRIPTORS then DescriptorLimit else PlayerFails)
  }

  ghost function Happens(c: M.Config, m: Stage, a: Act): Stage
    requires c.outputRate > 0 && Inv(m.player.view) && Allowed(c, m, a)
  {
    match a
    case Start(id, t) => Begins(c, m, id, t)
    case Stop => Ends(m)
    case Own(move) => Loops(c, m, move)
    case Stray(id, message) => m.(down := m.down + [Item(id, message)])
    case SenderTakes => Heeds(m)
    case SessionTakes => Hears(c, m)
    case ReportTaken => Passes(m)
    case PlayerTakes => Obeys(m)
    case Render(frames) => m.(player := R.Advance(m.player, R.RenderEvent(frames)))
    case Command(e) => m.(port := m.port + [Item(m.client, e)])
  }
}
