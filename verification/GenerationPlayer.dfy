// The player over many generations: messages of another generation leave it as it
// is, and it enters a new one as if it were its first.
module GenerationPlayer {
  import M = PlayerModel
  import opened PlayerInvariant
  import R = PlayerRuns
  import A = PlayerAck
  import opened Protocol
  import opened ProtocolInvariant
  import opened ProtocolPlayer
  import opened ProtocolGenerations
  import opened GenerationInvariant

  // --- the player on its own --------------------------------------------------

  // A player in no generation, or addressed in another, does nothing.
  lemma StrangerIgnored(r: R.Run, e: R.Event)
    requires Inv(r.view) && Name(e) != r.view.generation
    requires e.FormatEvent? || e.AudioEvent? || e.DoneEvent? || e.PauseEvent? || e.ResumeEvent? || e.ClearEvent?
    requires e.ClearEvent? ==> e.id != ""
    ensures R.Advance(r, e) == r
  {
    assert R.Step(r.view, e) == r.view;
    hide Inv;
  }

  lemma NobodyRenders(r: R.Run, frames: nat)
    requires Inv(r.view) && r.view.generation == ""
    ensures R.Advance(r, R.RenderEvent(frames)) == r
  {
    assert R.Step(r.view, R.RenderEvent(frames)) == r.view;
    hide Inv;
  }

  // The player as it is at the start of a generation.
  ghost predicate Fresh(v: M.View, id: string) {
    v == M.Initial(v.config).(generation := id, stream := M.Stream(v.stream.epoch, 0, [], 0, 0, false),
                              posted := v.posted)
    && forall i | 0 <= i < |v.posted| :: v.posted[i].epoch < v.stream.epoch
  }

  lemma EntersFresh(r: R.Run, id: string)
    requires R.RunOk(r) && A.AckOk(r.view) && id != "" && id != r.view.generation
    ensures var n := R.Advance(r, R.SetGenerationEvent(id));
            R.RunOk(n) && A.AckOk(n.view) && Fresh(n.view, id) && n.view.config == r.view.config && n.heard == []
  {
    var e := R.SetGenerationEvent(id);
    R.AdvanceOk(r, e);
    A.StepAck(r.view, e);
    EntersView(r.view, id);
    AdvanceView(r, e);
  }

  lemma EntersView(v: M.View, id: string)
    requires Inv(v) && id != "" && id != v.generation
    ensures var w := M.SetGeneration(v, id);
            Fresh(w, id) && w.config == v.config && w.stream.epoch != v.stream.epoch && Inv(w)
  {
    var p := M.Post(v, M.Progress);
    PostOk(v, M.Progress);
    R.PostKeeps(v, M.Progress);
    forall i | 0 <= i < |p.posted| ensures p.posted[i].epoch <= p.stream.epoch { assert WithinView(p.posted[i], p); }
    SetGenerationOk(v, id);
    hide Inv, M.Post;
  }

  lemma InitFresh(u: Setup)
    requires SetupOk(u)
    ensures Fresh(Init(u).player.view, u.generation) && Init(u).player.view.config == u.player
  {
    InitialOk(u.player);
    EntersView(M.Initial(u.player), u.generation);
  }

  // To the protocol of one generation, one fresh player is as good as another.
  lemma FreshGood(u: Setup, s: System, r: R.Run)
    requires Good(u, s) && Fresh(s.player.view, u.generation) && s.delivered == 0
    requires R.RunOk(r) && A.AckOk(r.view) && r.view.config == u.player && Fresh(r.view, u.generation)
    ensures Good(u, s.(player := r, delivered := |r.view.posted|))
  {
    var t := s.(player := r, delivered := |r.view.posted|);
    A.NoAckYet(r.view.posted, r.view.stream.epoch);
    assert r.view.posted[..t.delivered] == r.view.posted;
    assert PlayerCursor(r.view) == PlayerCursor(s.player.view);
    assert SessionCursor(u, t) == SessionCursor(u, s);
    hide Inv, R.RunOk, A.AckOk, AfterPort, AfterDown, AfterUp;
  }

  // --- the player among the others --------------------------------------------

  lemma AdvanceKeeps(r: R.Run, e: R.Event)
    requires R.RunOk(r) && A.AckOk(r.view)
    ensures var n := R.Advance(r, e);
            R.RunOk(n) && A.AckOk(n.view) && n.view.config == r.view.config && R.PostsExtend(r.view, n.view)
  {
    R.AdvanceOk(r, e);
    A.StepAck(r.view, e);
    R.StepExtends(r.view, e);
    AdvanceView(r, e);
    hide R.RunOk, A.AckOk, R.PostsExtend, R.Step, R.Advance, Inv;
  }

  // One message fewer in the port, and the player where it leads.
  lemma TakenFollows(m: Stage, n: Stage)
    requires Follows(m) && m.port != [] && Heard(n) == Turn(Heard(m), m.port[0])
    requires n == m.(port := m.port[1..], player := n.player, played := n.played, start := n.start, fault := n.fault)
    requires n.played == if m.port[0].On? then m.played + {m.port[0].id} else m.played
    ensures Follows(n)
  {
    assert m.port[0].On? ==> Announces(m.port, m.port[0].id);
    assert forall k | Announces(m.port[1..], k) :: Announces(m.port, k);
    hide Announces, Labelled;
  }

  lemma RenderedFollows(m: Stage, n: Stage)
    requires Follows(m) && n == m.(player := n.player) && Heard(n) == Heard(m)
    ensures Follows(n)
  {
    hide Announces, Labelled, End, Once;
  }

  // More reports of the same generation, or of the one that has just ended.
  lemma MorePosts(m: Stage, n: Stage)
    requires Posts(m) && (Heard(m) == "" || Heard(m) in m.played) && R.PostsExtend(m.player.view, n.player.view)
    requires n.delivered == m.delivered && n.start == m.start && n.played == m.played
    requires Heard(n) == "" || Heard(n) == Heard(m)
    ensures Posts(n)
  {
  }

  lemma FirstPosts(m: Stage, n: Stage, id: string)
    requires Posts(m) && (Heard(m) == "" || Heard(m) in m.played) && R.PostsExtend(m.player.view, n.player.view)
    requires n.delivered == m.delivered && n.start == |n.player.view.posted| && n.played == m.played + {id}
    requires Heard(n) == id && id !in m.played
    ensures Posts(n)
  {
  }

  // --- entering and leaving a generation --------------------------------------

  ghost function Entered(m: Stage, id: string, r: R.Run): Stage
    requires m.port != []
  {
    m.(port := m.port[1..], player := r, played := m.played + {id}, start := |r.view.posted|)
  }

  lemma EnterLinks(c: M.Config, m: Stage, id: string)
    requires Links(c, m) && m.port != [] && m.port[0] == On(id)
    ensures id !in m.played && Links(c, Entered(m, id, R.Advance(m.player, R.SetGenerationEvent(id))))
  {
    var e := R.SetGenerationEvent(id);
    var n := Entered(m, id, R.Advance(m.player, e));
    assert id != "" && id !in m.played && id != Heard(m) && (Heard(m) == "" || Heard(m) in m.played) by {
      assert Labelled(m.port[0]);
      hide End, Announces;
    }
    AdvanceKeeps(m.player, e);
    hide Inv, R.Advance, R.PostsExtend, R.RunOk, A.AckOk, Fresh, Posts, Fixed;
    assert Heard(n) == id by { EntersFresh(m.player, id); FreshIn(n.player.view, id); }
    TakenFollows(m, n);
    hide Follows;
    FirstPosts(m, n, id);
    FixedSame(c, m, n);
  }

  lemma FreshIn(v: M.View, id: string)
    requires Fresh(v, id)
    ensures v.generation == id
  {
  }

  lemma EnterOwn(c: M.Config, m: Stage, id: string, r: R.Run, w: System)
    requires m.port != [] && m.port[0] == On(id) && id !in m.played && m.delivered <= |r.view.posted|
    requires R.RunOk(r) && A.AckOk(r.view) && r.view.config == c && Fresh(r.view, id)
    requires World(c, m, id, w)
    ensures World(c, Entered(m, id, r), id, w.(player := r, delivered := |r.view.posted|))
  {
    var u := In(c, m, id);
    assert In(c, Entered(m, id, r), id) == u;
    InitFresh(u);
    FreshGood(u, w, r);
    FreshIn(r.view, id);
    hide Good, SetupOk, Fresh, R.RunOk, A.AckOk, Init;
  }

  lemma EnterOther(c: M.Config, m: Stage, id: string, r: R.Run, k: string, w: System)
    requires m.port != [] && m.port[0] == On(id) && r.view.generation == id && k != id && World(c, m, k, w)
    ensures World(c, Entered(m, id, r), k, w)
  {
    assert In(c, Entered(m, id, r), k) == In(c, m, k);
    hide Good, SetupOk, Init;
  }

  // A message has been taken by a player that stays in its generation, or in none.
  ghost function Taken(m: Stage, r: R.Run): Stage
    requires m.port != []
  {
    m.(port := m.port[1..], player := r)
  }

  lemma TakenLinks(c: M.Config, m: Stage, e: R.Event)
    requires Links(c, m) && m.port != [] && !m.port[0].On?
    requires R.Advance(m.player, e).view.generation == Turn(Heard(m), m.port[0])
    ensures Links(c, Taken(m, R.Advance(m.player, e)))
  {
    var n := Taken(m, R.Advance(m.player, e));
    AdvanceKeeps(m.player, e);
    assert Heard(m) == "" || Heard(m) in m.played;
    hide Inv, R.Advance, R.PostsExtend, R.RunOk, A.AckOk, Posts, Fixed;
    TakenFollows(m, n);
    hide Follows;
    MorePosts(m, n);
    FixedSame(c, m, n);
  }

  lemma LeaveTurns(r: R.Run, id: string)
    requires Inv(r.view) && id != ""
    ensures R.Advance(r, R.ClearEvent(id)).view.generation == if id == r.view.generation then "" else r.view.generation
    ensures id != r.view.generation ==> R.Advance(r, R.ClearEvent(id)) == r
  {
    if id == r.view.generation { R.ClearStarts(r.view, id); } else { StrangerIgnored(r, R.ClearEvent(id)); }
    AdvanceView(r, R.ClearEvent(id));
    hide Inv, R.Advance;
  }

  // The player has left, or the message was not for it.
  lemma LeftWorld(c: M.Config, m: Stage, r: R.Run, k: string, w: System)
    requires m.port != [] && !m.port[0].On? && (m.port[0].Item? ==> m.port[0].id != Heard(m)) && k != ""
    requires r.view.generation == Turn(Heard(m), m.port[0]) && (r.view.generation == "" || r == m.player)
    requires World(c, m, k, w)
    ensures World(c, Taken(m, r), k, w)
  {
    assert In(c, Taken(m, r), k) == In(c, m, k);
    hide Good, SetupOk, Init;
  }

  // --- a message of its own ---------------------------------------------------

  lemma TakenOwn(c: M.Config, m: Stage, r: R.Run, w: System)
    requires m.port != [] && m.port[0].Item? && m.port[0].id == Heard(m) == r.view.generation
    requires Heard(m) in m.played && World(c, m, Heard(m), w)
    requires w.port != [] && Good(In(c, m, Heard(m)), w.(port := w.port[1..], player := r))
    ensures World(c, Taken(m, r), Heard(m), w.(port := w.port[1..], player := r))
  {
    assert In(c, Taken(m, r), Heard(m)) == In(c, m, Heard(m));
    hide Good, SetupOk, Init;
  }

  lemma TakenOther(c: M.Config, m: Stage, r: R.Run, k: string, w: System)
    requires m.port != [] && m.port[0].Item? && m.port[0].id == Heard(m) == r.view.generation
    requires k != Heard(m) && World(c, m, k, w)
    ensures World(c, Taken(m, r), k, w)
  {
    assert In(c, Taken(m, r), k) == In(c, m, k);
    hide Good, SetupOk, Init;
  }

  // Taking it is a move of that generation alone.
  lemma TakesAlone(u: Setup, m: Stage, w: System, e: R.Event)
    requires Good(u, w) && w.fault == NoFault && w.player == m.player && w.port != [] && w.port[0] == e
    ensures Inv(m.player.view) && m.player.view.generation == u.generation
    ensures var next := R.Advance(m.player, e);
            if next.view.stream.epoch == m.player.view.stream.epoch
            then next.view.generation == u.generation && Good(u, w.(port := w.port[1..], player := next))
            else |m.player.view.live| == M.DESCRIPTORS
  {
    PlayerReceiveGood(u, w);
    GoodGeneration(u, w);
    var next := R.Advance(m.player, e);
    if next.view.stream.epoch == m.player.view.stream.epoch {
      GoodGeneration(u, PlayerReceive(w));
    }
    hide Good, Inv, R.Advance;
  }

  lemma GoodGeneration(u: Setup, s: System)
    requires Good(u, s)
    ensures Inv(s.player.view) && s.player.view.generation == u.generation
  {
  }

  // --- render quanta and pauses -----------------------------------------------

  lemma RenderLinks(c: M.Config, m: Stage, frames: nat)
    requires Links(c, m)
    ensures Links(c, m.(player := R.Advance(m.player, R.RenderEvent(frames))))
  {
    var e := R.RenderEvent(frames);
    var n := m.(player := R.Advance(m.player, e));
    AdvanceKeeps(m.player, e);
    RenderStays(m.player, frames);
    assert Heard(m) == "" || Heard(m) in m.played;
    hide Inv, R.Advance, R.PostsExtend, R.RunOk, A.AckOk, Posts, Fixed;
    RenderedFollows(m, n);
    hide Follows;
    MorePosts(m, n);
    FixedSame(c, m, n);
  }

  lemma RenderStays(r: R.Run, frames: nat)
    requires Inv(r.view)
    ensures R.Advance(r, R.RenderEvent(frames)).view.generation == r.view.generation
  {
    R.ProcessMoves(r.view, frames);
    AdvanceView(r, R.RenderEvent(frames));
    hide Inv, R.Advance, M.Process;
  }

  lemma RenderOwn(c: M.Config, m: Stage, frames: nat, w: System)
    requires Inv(m.player.view) && Heard(m) in m.played && World(c, m, Heard(m), w)
    ensures World(c, m.(player := R.Advance(m.player, R.RenderEvent(frames))), Heard(m),
                  w.(player := R.Advance(m.player, R.RenderEvent(frames))))
  {
    assert In(c, m.(player := R.Advance(m.player, R.RenderEvent(frames))), Heard(m)) == In(c, m, Heard(m));
    RenderStays(m.player, frames);
    PlayGood(In(c, m, Heard(m)), w, frames);
    hide Good, SetupOk, Init, Inv, R.Advance;
  }

  lemma RenderOther(c: M.Config, m: Stage, r: R.Run, k: string, w: System)
    requires r.view.generation == Heard(m) && k != Heard(m) && World(c, m, k, w)
    ensures World(c, m.(player := r), k, w)
  {
    assert In(c, m.(player := r), k) == In(c, m, k);
    hide Good, SetupOk, Init;
  }
}
