// The session's books as they are kept: the conversation runtime, the playback
// timeline and the credit window of the current generation, changed in place.
module SessionBooks {
  import opened Arithmetic
  import opened Options
  import F = Flow
  import C = ConversationModel
  import R = Conversation
  import P = Playback

  lemma RefusalKeeps(c: C.Config, items: seq<C.Item>, gen: string, sequence: int, text: C.Text, start: int, end: int)
    requires items != []
    ensures var r := C.AddChunk(c, items, gen, sequence, text, start, end); r.1 != C.Accepted ==> r.0 == items
  {
    hide C.Trim;
  }

  class Ledger {
    const conversation: R.Runtime
    var gen: string
    var live: bool
    var timeline: P.PlaybackTimeline?
    var flow: F.FlowController?
    var creditRequired: bool

    ghost function Repr(): set<object>
      reads this
    {
      {this, conversation} + (if timeline == null then {} else {timeline}) + (if flow == null then {} else {flow})
    }

    ghost function View(): P.Books
      reads Repr()
    {
      P.Books(conversation.items, gen, live, if timeline == null then None else Some(timeline.View()),
              if flow == null then None else Some(flow.State()), creditRequired)
    }

    constructor (config: C.Config, systemItem: string)
      ensures View() == P.Books([C.SystemItem(config, systemItem)], "", false, None, None, false)
      ensures conversation.config == config && fresh(Repr())
    {
      conversation := new R.Runtime(config, systemItem);
      gen, live, timeline, flow, creditRequired := "", false, null, null, false;
    }

    // Negotiated while no generation runs.
    method RequireAudioCredit() returns (ok: bool)
      modifies this`creditRequired
      ensures (View(), if ok then P.Done else P.TooLate) == P.RequireCredit(old(View()))
    {
      if gen != "" { return false; }
      creditRequired := true;
      return true;
    }

    method Sync()
      modifies conversation
      ensures View() == P.Sync(old(View()))
      ensures |conversation.items| == |old(conversation.items)|
    {
      if timeline == null { return; }
      conversation.Progress(gen, timeline.sent, timeline.played);
    }

    method FinalizeCurrent()
      modifies conversation
      ensures View() == P.FinalizeCurrent(old(View()))
      ensures |conversation.items| == |old(conversation.items)|
    {
      Sync();
      conversation.Finalize(gen);
    }

    predicate Active(id: string)
      reads this
    {
      id != "" && id == gen && live
    }

    method AppendText(id: string, text: C.Text, sent: bool) returns (reply: P.Reply)
      requires conversation.items != []
      modifies conversation
      ensures (View(), reply) == P.AppendText(conversation.config, old(View()), id, text, sent)
      ensures conversation.items != []
    {
      if !Active(id) { return P.Inactive; }
      var outcome := conversation.Append(id, text, sent);
      return if outcome == C.Accepted then P.Done else P.Refused(outcome);
    }

    method MarkTextDone(id: string)
      modifies conversation
      ensures View() == P.TextDone(old(View()), id)
      ensures |conversation.items| == |old(conversation.items)|
    {
      if !Active(id) { return; }
      conversation.Done(id, false);
    }

    method MarkAudioDone()
      modifies conversation
      ensures View() == P.AudioDone(old(View()))
      ensures |conversation.items| == |old(conversation.items)|
    {
      conversation.Done(gen, true);
      Sync();
    }

    method RegisterSpeech(id: string, sequence: int, text: C.Text, rate: int, channels: int, frames: int)
        returns (reply: P.Reply)
      requires conversation.items != []
      modifies conversation, timeline
      ensures (View(), reply) == P.RegisterSpeech(conversation.config, old(View()), id, sequence, text, rate, channels,
                                                  frames)
      ensures conversation.items != []
    {
      hide C.AddChunk;
      if !Active(id) { return P.Inactive; }
      if timeline == null { return P.NoTimeline; }
      var start := timeline.generated;
      if rate <= 0 || channels <= 0 || frames <= 0
         || (start > 0 && (timeline.rate != rate || timeline.channels != channels)) {
        return P.BadFormat;
      }
      RefusalKeeps(conversation.config, conversation.items, id, sequence, text, start, start + frames);
      var outcome := conversation.AddChunk(id, sequence, text, start, start + frames);
      if outcome != C.Accepted { return P.Refused(outcome); }
      timeline.SetFormat(rate, channels);
      timeline.AddGenerated(frames);
      return P.Done;
    }

    method OpenFlow(id: string, rate: int) returns (reply: P.Reply)
      modifies this`flow
      ensures (View(), reply) == P.OpenFlow(old(View()), id, rate)
      ensures fresh(Repr() - old(Repr()))
    {
      if !Active(id) { return P.Inactive; }
      if flow != null { return P.Done; }
      if !F.SupportedRate(rate) { return P.BadRate; }
      var f := new F.FlowController(rate);
      if creditRequired { f.RequireCredit(); }
      flow := f;
      return P.Done;
    }

    // Without the session's lock: whoever obtained the window asks it. A closed
    // window waits, and nothing is granted.
    method Reserve(requested: int)
      modifies flow
      ensures View() == P.Reserve(old(View()), requested)
      ensures conversation.items == old(conversation.items)
    {
      if flow == null { return; }
      var _, _ := flow.Reserve(requested, false, []);
    }

    method RecordSent(id: string, frames: int)
      modifies conversation, timeline
      ensures View() == P.RecordSent(old(View()), id, frames)
      ensures |conversation.items| == |old(conversation.items)|
    {
      if !Active(id) || timeline == null { return; }
      timeline.AddSent(frames);
      if flow != null { timeline.SetPlayed(Min(flow.played, timeline.sent)); }
      Sync();
    }

    method RecordSource(frames: int) returns (reply: P.Reply)
      modifies conversation, timeline, flow
      ensures (View(), reply) == P.RecordSource(old(View()), frames)
      ensures |conversation.items| == |old(conversation.items)|
    {
      if frames < 0 { return P.BadPosition; }
      if timeline == null { return P.Done; }
      if flow != null { flow.Acknowledge(frames); }
      timeline.SetPlayed(Min(frames, timeline.sent));
      Sync();
      return P.Done;
    }

    method RecordPosition(id: string, frames: int) returns (reply: P.Reply)
      modifies conversation, timeline, flow
      ensures (View(), reply) == P.RecordPosition(old(View()), id, frames)
      ensures |conversation.items| == |old(conversation.items)|
    {
      if !Active(id) { return P.Done; }
      reply := RecordSource(frames);
    }

    method UpdateCredit(id: string, credit: F.Credit) returns (reply: P.Reply)
      modifies conversation, timeline, flow
      ensures (View(), reply) == P.UpdateCredit(old(View()), id, credit)
      ensures |conversation.items| == |old(conversation.items)|
    {
      if !Active(id) || flow == null { return P.Done; }
      var accepted := flow.Update(credit);
      if !accepted { return P.BadCredit; }
      reply := RecordSource(flow.played);
    }

    method PauseTimeline(paused: bool)
      modifies timeline
      ensures View() == P.PauseTimeline(old(View()), paused)
    {
      if timeline != null { timeline.SetPaused(paused); }
    }

    // The conversation part of starting a generation, with its new timeline.
    method BeginGeneration(item: string, turn: string, gen: string, textOnly: bool)
      requires conversation.items != []
      modifies this, conversation
      ensures View() == P.BeginGeneration(conversation.config, old(View()), item, turn, gen, textOnly)
      ensures conversation.items != []
      ensures fresh(Repr() - old(Repr()))
    {
      FinalizeCurrent();
      var t := new P.PlaybackTimeline(gen);
      this.gen, live, flow := gen, true, null;
      timeline := t;
      if textOnly { timeline := null; }
      conversation.BeginAssistant(item, turn, gen, textOnly);
    }

    method EndGeneration()
      modifies this, conversation, timeline
      ensures View() == P.EndGeneration(old(View()))
      ensures |conversation.items| == |old(conversation.items)|
      ensures Repr() == old(Repr())
    {
      FinalizeCurrent();
      PauseTimeline(false);
      gen, live := "", false;
    }
  }
}
