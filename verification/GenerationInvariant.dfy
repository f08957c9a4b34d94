// Whole runs of any number of generations: whatever is still under way of former
// ones, the present one is as it would be alone, so no party refuses another,
// counts agree, and what is heard is what its own generation produced.
module GenerationInvariant {
  import opened Arithmetic
  import opened Options
  import C = Client
  import M = PlayerModel
  import opened PlayerInvariant
  import R = PlayerRuns
  import A = PlayerAck
  import opened Protocol
  import opened ProtocolInvariant
  import opened ProtocolGenerations

  // The generation the player is in.
  ghost function Heard(m: Stage): string { m.player.view.generation }

  function UpOf(k: string, up: seq<(string, C.Up)>): seq<C.Up>
    decreases |up|
  {
    if up == [] then [] else (if up[0].0 == k then [up[0].1] else []) + UpOf(k, up[1..])
  }

  // --- the generations behind one another -------------------------------------

  function Name(e: R.Event): string {
    match e
    case SetGenerationEvent(id) => id
    case FormatEvent(id, _) => id
    case AudioEvent(id, _, _, _) => id
    case DoneEvent(id, _) => id
    case PauseEvent(id, _) => id
    case ResumeEvent(id, _) => id
    case ClearEvent(id) => id
    case RenderEvent(_) => ""
  }

  predicate Labelled(e: Signal<R.Event>) {
    && e.id != ""
    && (e.Item? ==> Name(e.body) == e.id && !e.body.SetGenerationEvent? && !e.body.ClearEvent? && !e.body.RenderEvent?)
  }

  // Session and player follow the server through the marks in their queues.
  ghost predicate Follows(m: Stage) {
    && m.played <= m.read <= m.terms.Keys && "" !in m.terms
    && (m.gen == "" || m.gen in m.terms) && (m.client == "" || m.client in m.read)
    && (Heard(m) == "" || Heard(m) in m.played)
    && End(m.client, m.down) == m.gen && End(Heard(m), m.port) == m.client
    && Once(m.down, m.read) && Once(m.port, m.played)
    && (forall k | Announces(m.down, k) :: k in m.terms) && (forall k | Announces(m.port, k) :: k in m.read)
    && (forall i | 0 <= i < |m.down| :: m.down[i].id != "") && (forall i | 0 <= i < |m.port| :: Labelled(m.port[i]))
    && (forall i | 0 <= i < |m.up| :: m.up[i].0 in m.read)
  }

  // Reports are labelled with the generation they were posted in; those of the
  // present one are the last.
  ghost predicate Posts(m: Stage) {
    var posted := m.player.view.posted;
    && m.delivered <= |posted| && m.start <= |posted|
    && (forall i | 0 <= i < |posted| :: posted[i].generation in m.played)
    && (Heard(m) != "" ==> forall i | 0 <= i < |posted| :: posted[i].generation == Heard(m) <==> i >= m.start)
  }

  ghost predicate Fixed(c: M.Config, m: Stage) {
    && WellConfigured(c) && m.player.view.config == c && R.RunOk(m.player) && A.AckOk(m.player.view)
    && m.made.Keys == m.terms.Keys && (forall k | k in m.terms :: SetupOk(In(c, m, k)))
  }

  ghost predicate Links(c: M.Config, m: Stage) { Fixed(c, m) && Follows(m) && Posts(m) }

  lemma FixedSame(c: M.Config, m: Stage, n: Stage)
    requires Fixed(c, m) && n.made.Keys == m.made.Keys && n.terms == m.terms
    requires n.player.view.config == c && R.RunOk(n.player) && A.AckOk(n.player.view)
    ensures Fixed(c, n)
  {
    hide R.RunOk, A.AckOk, SetupOk;
    forall k | k in n.terms ensures SetupOk(In(c, n, k)) { assert In(c, n, k) == In(c, m, k); }
  }

  lemma PostsSame(m: Stage, n: Stage)
    requires Posts(m) && n.player == m.player && n.start == m.start && n.played == m.played
    requires m.delivered <= n.delivered <= |n.player.view.posted|
    ensures Posts(n)
  {
  }

  // --- a generation on its own ------------------------------------------------

  // What one generation would be alone: the same sender while it is the server's,
  // the same session while it is the session's, the same player while it is the
  // player's, and of every queue what will be heeded of it.
  ghost predicate Sends(m: Stage, k: string, w: System) {
    && k in m.made && m.made[k] == w.sender.produced
    && (k == m.gen ==> w.sender == m.sender && w.up == UpOf(k, m.up))
  }

  ghost predicate Listens(m: Stage, k: string, w: System) {
    k == m.client || k !in m.read ==>
      w.client == (if k == m.client then m.audio else None) && w.down == Live(k, m.client, m.down)
  }

  ghost predicate Renders(c: M.Config, m: Stage, k: string, w: System)
    requires SetupOk(In(c, m, k))
  {
    && (k == Heard(m) || k !in m.played ==> w.port == Live(k, Heard(m), m.port))
    && (k !in m.played ==> w.player == Init(In(c, m, k)).player && w.delivered == 0)
    && (k == Heard(m) ==> w.player == m.player)
    && (k == Heard(m) == m.client ==> w.delivered == Max(m.delivered, m.start))
  }

  ghost predicate World(c: M.Config, m: Stage, k: string, w: System) {
    SetupOk(In(c, m, k)) && Good(In(c, m, k), w) && w.fault == NoFault && Sends(m, k, w) && Listens(m, k, w)
    && Renders(c, m, k, w)
  }

  ghost predicate Tracked(c: M.Config, m: Stage, ws: map<string, System>) {
    Links(c, m) && ws.Keys == m.terms.Keys && forall k | k in m.terms :: World(c, m, k, ws[k])
  }

  lemma EmptyTracked(c: M.Config)
    requires WellConfigured(c)
    ensures Tracked(c, Empty(c), map[])
  {
    InitialOk(c);
    FirstAck(c);
  }

  lemma FirstAck(c: M.Config)
    requires WellConfigured(c)
    ensures R.RunOk(R.Run(M.Initial(c), [])) && A.AckOk(M.Initial(c))
  {
    InitialOk(c);
  }

  // The server's present generation, if the session has read of it, is the session's;
  // and the session's is the player's if the player has.
  lemma InStep(m: Stage)
    requires Follows(m)
    ensures m.gen != "" && m.gen in m.read ==> m.gen == m.client
    ensures m.client != "" && m.client in m.played ==> m.client == Heard(m)
  {
    if m.gen != "" && m.gen in m.read && m.gen != m.client {
      SeenOver(m.gen, m.down, m.read);
      Over(m.gen, m.client, m.down);
    }
    if m.client != "" && m.client in m.played && m.client != Heard(m) {
      SeenOver(m.client, m.port, m.played);
      Over(m.client, Heard(m), m.port);
    }
  }

  // --- queues -----------------------------------------------------------------

  lemma {:induction false} UpAppend(k: string, up: seq<(string, C.Up)>, more: seq<(string, C.Up)>)
    ensures UpOf(k, up + more) == UpOf(k, up) + UpOf(k, more)
    decreases |up|
  {
    if up == [] {
      assert up + more == more;
    } else {
      assert (up + more)[1..] == up[1..] + more;
      UpAppend(k, up[1..], more);
      var head := if up[0].0 == k then [up[0].1] else [];
      assert head + (UpOf(k, up[1..]) + UpOf(k, more)) == (head + UpOf(k, up[1..])) + UpOf(k, more);
    }
  }

  lemma {:induction false} UpAddressed(k: string, id: string, q: seq<C.Up>)
    ensures UpOf(k, Addressed(id, q)) == if k == id then q else []
    decreases |q|
  {
    if q != [] {
      assert Addressed(id, q)[1..] == Addressed(id, q[1..]) && Addressed(id, q)[0] == (id, q[0]);
      UpAddressed(k, id, q[1..]);
      assert [q[0]] + q[1..] == q;
    }
  }

  lemma {:induction false} UpNone(k: string, up: seq<(string, C.Up)>)
    requires forall i | 0 <= i < |up| :: up[i].0 != k
    ensures UpOf(k, up) == []
    decreases |up|
  {
    if up != [] { UpNone(k, up[1..]); }
  }

  // Messages of one generation at the end of a queue.
  lemma {:induction false} TaggedEnd<T>(k: string, c: string, q: seq<Signal<T>>, id: string, xs: seq<T>)
    ensures End(c, q + Tagged(id, xs)) == End(c, q)
    ensures Live(k, c, q + Tagged(id, xs)) == Live(k, c, q) + if id == k == End(c, q) then xs else []
    decreases |xs|
  {
    if xs == [] {
      assert q + Tagged(id, xs) == q;
    } else {
      assert q + Tagged(id, xs) == (q + [Item(id, xs[0])]) + Tagged(id, xs[1..]);
      EndAppend(c, q, Item(id, xs[0]));
      LiveAppend(k, c, q, Item(id, xs[0]));
      TaggedEnd(k, c, q + [Item(id, xs[0])], id, xs[1..]);
      if id == k == End(c, q) {
        assert Live(k, c, q) + [xs[0]] + xs[1..] == Live(k, c, q) + xs;
      }
    }
  }

  lemma {:induction false} TaggedOnce<T>(q: seq<Signal<T>>, seen: set<string>, id: string, xs: seq<T>)
    requires Once(q, seen)
    ensures Once(q + Tagged(id, xs), seen)
    ensures forall k :: Announces(q + Tagged(id, xs), k) <==> Announces(q, k)
    decreases |xs|
  {
    if xs == [] {
      assert q + Tagged(id, xs) == q;
    } else {
      assert q + Tagged(id, xs) == (q + [Item(id, xs[0])]) + Tagged(id, xs[1..]);
      OnceAppend(q, seen, Item(id, xs[0]));
      forall k ensures Announces(q + [Item(id, xs[0])], k) <==> Announces(q, k) {
        AnnouncesAppend(q, Item(id, xs[0]), k);
      }
      TaggedOnce(q + [Item(id, xs[0])], seen, id, xs[1..]);
    }
  }

  // One mark at the end of the server's queue.
  lemma DownFollows(m: Stage, d: Signal<Down>, n: Stage)
    requires Follows(m) && d.id != "" && (d.On? ==> d.id !in m.read && !Announces(m.down, d.id))
    requires n == m.(down := m.down + [d], gen := Turn(m.gen, d), terms := n.terms, sender := n.sender, made := n.made)
    requires m.terms.Keys <= n.terms.Keys && "" !in n.terms && (d.On? ==> d.id in n.terms)
    ensures Follows(n)
  {
    EndAppend(m.client, m.down, d);
    OnceAppend(m.down, m.read, d);
    forall k | Announces(n.down, k) ensures k in n.terms { AnnouncesAppend(m.down, d, k); }
    hide End, Once, Announces, Labelled;
  }
}
