// The chunker's growing buffer and the pipeline that numbers its chunks.
module Chunker {
  import opened Arithmetic
  import opened Options
  import opened ChunkerModel
  import opened ChunkerCuts

  class TextChunker {
    const soft: nat
    const hard: nat
    var buffer: string

    ghost function Limit(): Limits { Limits(soft, hard) }

    ghost predicate Valid() { Usable(Limit()) }

    constructor (soft: int, hard: int)
      ensures Valid() && buffer == "" && Limit() == MakeLimits(soft, hard)
    {
      var s, h := soft, hard;
      if s <= 0 { s := 40; }
      if h <= 0 { h := 80; }
      if h < s { h := s; }
      this.soft, this.hard, buffer := s, h, "";
    }

    // After a push the buffer is below the hard limit, after a flush empty.
    method Push(delta: string) returns (chunks: seq<string>)
      requires Valid()
      modifies this
      ensures delta == "" ==> chunks == [] && buffer == old(buffer)
      ensures delta != "" ==> Extraction(chunks, buffer) == Extract(Limit(), old(buffer) + delta, false)
      ensures delta != "" ==> |buffer| < hard
    {
      if delta == "" { return []; }
      buffer := buffer + delta;
      chunks := ExtractChunks(false);
      ExtractLimits(Limit(), old(buffer) + delta, false);
    }

    method Flush() returns (chunks: seq<string>)
      requires Valid()
      modifies this
      ensures Extraction(chunks, buffer) == Extract(Limit(), old(buffer), true) && buffer == ""
    {
      chunks := ExtractChunks(true);
      ExtractLimits(Limit(), old(buffer), true);
    }

    method Reset()
      modifies this
      ensures buffer == ""
    {
      buffer := "";
    }

    method ExtractChunks(flush: bool) returns (chunks: seq<string>)
      requires Valid()
      modifies this
      ensures Extraction(chunks, buffer) == Extract(Limit(), old(buffer), flush)
    {
      hide Extract, Cut, TrimLeft, TrimSpace, Space;
      var text := buffer;
      chunks := [];
      EmptyExtract(Limit(), flush);
      if text == "" { return; }
      ghost var whole := Extract(Limit(), text, flush);
      while true
        invariant text != ""
        invariant whole == Extraction(chunks + Extract(Limit(), text, flush).chunks, Extract(Limit(), text, flush).rest)
        decreases |text|
      {
        ExtractStep(Limit(), text, flush);
        CutPositive(Limit(), text, flush);
        var cut := FindBoundary(text, flush);
        if cut <= 0 { break; }
        var chunk := TrimSpace(text[..cut]);
        ghost var more := Extract(Limit(), TrimLeft(text[cut..]), flush);
        assert chunks + (Piece(text[..cut]) + more.chunks) == (chunks + Piece(text[..cut])) + more.chunks;
        if chunk != "" { chunks := chunks + [chunk]; }
        text := TrimLeft(text[cut..]);
        if text == "" || (!flush && |text| < soft) {
          ShortIdle(Limit(), text, flush);
          break;
        }
      }
      buffer := text;
      assert chunks + [] == chunks;
    }

    // The place to cut, in the characters of the text.
    method FindBoundary(text: string, flush: bool) returns (cut: nat)
      requires Valid()
      ensures cut == Cut(Limit(), text, flush) && CutsAt(text, soft, hard, flush, cut)
    {
      hide Cut, CutsAt;
      CutExact(Limit(), text, flush);
      cut := ScanBoundary(text, flush);
    }

    // One scan, remembering the best stop on the way.
    method ScanBoundary(text: string, flush: bool) returns (cut: nat)
      requires Valid()
      ensures cut == Cut(Limit(), text, flush)
    {
      hide Priority, Stop, Cut, BestStop;
      var best := 0;
      BestStart(text);
      for i := 0 to |text|
        invariant i < hard && best == BestStop(text, Min(i, soft - 1))
        invariant forall j | soft - 1 <= j < i :: !Stop(text[j])
      {
        StopIsPriority(text[i]);
        BestStep(text, i);
        var priority := Priority(text[i]);
        if priority == 0 {
          if i + 1 >= hard {
            CutAtHard(Limit(), text, flush);
            if best > 0 { return best; }
            return i + 1;
          }
        } else {
          if i + 1 >= soft {
            CutAtStop(Limit(), text, i, flush);
            return i + 1;
          }
          if best == 0 || priority >= Priority(text[best - 1]) { best := i + 1; }
        }
      }
      CutNowhere(Limit(), text, flush);
      return if flush then |text| else 0;
    }
  }

  lemma BestStart(text: string)
    ensures BestStop(text, 0) == 0
  {}

  lemma BestStep(text: string, i: nat)
    requires i < |text|
    ensures var b := BestStop(text, i);
            BestStop(text, i + 1) == if Stop(text[i])
              && (b == 0 || Priority(text[i]) >= Priority(text[b - 1])) then i + 1 else b
  {}

  lemma CutAtStop(l: Limits, text: string, i: nat, flush: bool)
    requires Usable(l) && l.soft - 1 <= i < Min(|text|, l.hard) && Stop(text[i])
    requires forall j | l.soft - 1 <= j < i :: !Stop(text[j])
    ensures Cut(l, text, flush) == i + 1
  {
    hide Stop;
    FirstStopAt(text, l.soft - 1, i, Min(|text|, l.hard));
  }

  lemma CutAtHard(l: Limits, text: string, flush: bool)
    requires Usable(l) && |text| >= l.hard && forall j | l.soft - 1 <= j < l.hard - 1 :: !Stop(text[j])
    ensures !Stop(text[l.hard - 1]) ==>
              Cut(l, text, flush) == if BestStop(text, l.soft - 1) > 0 then BestStop(text, l.soft - 1) else l.hard
  {
    hide Stop;
    if !Stop(text[l.hard - 1]) { FirstStopNone(text, l.soft - 1, l.hard); }
  }

  lemma CutNowhere(l: Limits, text: string, flush: bool)
    requires Usable(l) && |text| < l.hard && forall j | l.soft - 1 <= j < |text| :: !Stop(text[j])
    ensures Cut(l, text, flush) == if flush then |text| else 0
  {
    hide Stop;
    FirstStopNone(text, Min(l.soft - 1, |text|), |text|);
  }

  lemma StopIsPriority(c: char)
    ensures Stop(c) <==> Priority(c) != 0
  {}

  lemma {:induction false} FirstStopAt(text: string, from: nat, k: nat, until: nat)
    requires from <= k < until <= |text| && Stop(text[k]) && forall j | from <= j < k :: !Stop(text[j])
    ensures FirstStop(text, from, until) == k
    decreases k - from
  {
    if from < k { FirstStopAt(text, from + 1, k, until); }
  }

  lemma {:induction false} FirstStopNone(text: string, from: nat, until: nat)
    requires from <= until <= |text| && forall j | from <= j < until :: !Stop(text[j])
    ensures FirstStop(text, from, until) == until
    decreases until - from
  {
    if from < until { FirstStopNone(text, from + 1, until); }
  }

  // Less than the soft limit is never cut before a flush.
  lemma ShortIdle(l: Limits, text: string, flush: bool)
    requires Usable(l) && (text == "" || (!flush && |text| < l.soft))
    ensures Extract(l, text, flush) == Extraction([], text)
  {
    CutPositive(l, text, flush);
  }

  // --- the pipeline ----------------------------------------------------------

  datatype Chunk = Chunk(sequence: nat, text: string, source: string)

  // How a call ends: everything went out; the pipeline is closed; its context
  // ended; the channel, or the lock, could not be had at once; or the normalizer
  // failed.
  datatype Outcome = Sent | Closed | ContextDone | Full | BadText

  // The normalizer is not part of this model: any text to any text, or an error.
  type Normalizer = string -> Option<string>

  // Chunks that normalize to something are numbered in order from `sequence`,
  // until one cannot be normalized or none goes out any more: room says how many
  // do, refusal what meets the next one.
  function Numbered(n: Normalizer, sources: seq<string>, sequence: nat, room: nat, refusal: Outcome)
    : (seq<Chunk>, Outcome)
    decreases |sources|
  {
    if sources == [] then ([], Sent)
    else
      match n(sources[0])
      case None => ([], BadText)
      case Some(text) =>
        if text == "" then Numbered(n, sources[1..], sequence, room, refusal)
        else if room == 0 then ([], refusal)
        else
          var (rest, outcome) := Numbered(n, sources[1..], sequence + 1, room - 1, refusal);
          ([Chunk(sequence, text, sources[0])] + rest, outcome)
  }

  lemma {:induction false} NumberedContiguous(
    n: Normalizer, sources: seq<string>, sequence: nat, room: nat, refusal: Outcome)
    ensures var out := Numbered(n, sources, sequence, room, refusal).0;
            && |out| <= room
            && forall i | 0 <= i < |out| ::
                 && out[i].sequence == sequence + i
                 && n(out[i].source) == Some(out[i].text)
                 && out[i].text != ""
                 && out[i].source in sources
    ensures Numbered(n, sources, sequence, room, refusal).1 in [Sent, BadText, refusal]
    decreases |sources|
  {
    if sources != [] {
      NumberedContiguous(n, sources[1..], sequence, room, refusal);
      if room > 0 { NumberedContiguous(n, sources[1..], sequence + 1, room - 1, refusal); }
    }
  }

  // What is spoken of a list of chunks: those that normalize to something, in order.
  function Speakable(n: Normalizer, sources: seq<string>): seq<string> {
    if sources == [] then []
    else (if n(sources[0]).Some? && n(sources[0]).value != "" then [sources[0]] else []) + Speakable(n, sources[1..])
  }

  function Sources(chunks: seq<Chunk>): seq<string> { seq(|chunks|, i requires 0 <= i < |chunks| => chunks[i].source) }

  // Everything speakable goes out up to where it stops: at the end, at a chunk that
  // cannot be normalized, or at one for which there is no room any more.
  lemma {:induction false} NumberedExact(
    n: Normalizer, sources: seq<string>, sequence: nat, room: nat, refusal: Outcome) returns (k: nat)
    requires refusal != Sent && refusal != BadText
    ensures var (out, outcome) := Numbered(n, sources, sequence, room, refusal);
            && k <= |sources| && Sources(out) == Speakable(n, sources[..k])
            && (forall i | 0 <= i < k :: n(sources[i]).Some?)
            && (outcome == Sent <==> k == |sources|)
            && (outcome == BadText <==> k < |sources| && n(sources[k]).None?)
            && (outcome == refusal <==> k < |sources| && n(sources[k]).Some?)
            && (outcome == refusal ==> n(sources[k]).value != "" && |out| == room)
    decreases |sources|
  {
    if sources == [] {
      k := 0;
      assert Sources([]) == [] && sources[..0] == [];
    } else if n(sources[0]).None? {
      k := 0;
      assert Sources([]) == [] && sources[..0] == [];
    } else if n(sources[0]).value == "" {
      k := NumberedExact(n, sources[1..], sequence, room, refusal);
      k := k + 1;
      assert sources[..k][1..] == sources[1..][..k - 1] && sources[..k][0] == sources[0];
      assert [] + Speakable(n, sources[1..][..k - 1]) == Speakable(n, sources[1..][..k - 1]);
    } else if room == 0 {
      k := 0;
      assert Sources([]) == [] && sources[..0] == [];
    } else {
      k := NumberedExact(n, sources[1..], sequence + 1, room - 1, refusal);
      k := k + 1;
      assert sources[..k][1..] == sources[1..][..k - 1] && sources[..k][0] == sources[0];
      var rest := Numbered(n, sources[1..], sequence + 1, room - 1, refusal).0;
      assert Sources([Chunk(sequence, n(sources[0]).value, sources[0])] + rest) == [sources[0]] + Sources(rest);
    }
  }

  // Handing over in two calls or in one makes no difference: the numbers go on, and
  // what stops the first stops the second.
  lemma {:induction false} NumberedAppend(
    n: Normalizer, a: seq<string>, b: seq<string>, sequence: nat, room: nat, refusal: Outcome)
    requires refusal != Sent
    ensures var (first, outcome) := Numbered(n, a, sequence, room, refusal);
            && |first| <= room
            && Numbered(n, a + b, sequence, room, refusal) ==
               if outcome != Sent then (first, outcome)
               else
                 var (second, end) := Numbered(n, b, sequence + |first|, room - |first|, refusal);
                 (first + second, end)
    decreases |a|
  {
    NumberedContiguous(n, a, sequence, room, refusal);
    if a == [] {
      assert a + b == b && forall s: seq<Chunk> :: [] + s == s;
    } else {
      assert (a + b)[0] == a[0] && (a + b)[1..] == a[1..] + b;
      NumberedAppend(n, a[1..], b, sequence, room, refusal);
      if room > 0 && n(a[0]).Some? && n(a[0]).value != "" {
        NumberedContiguous(n, a[1..], sequence + 1, room - 1, refusal);
        NumberedAppend(n, a[1..], b, sequence + 1, room - 1, refusal);
        var tail := Numbered(n, a[1..], sequence + 1, room - 1, refusal).0;
        var second := Numbered(n, b, sequence + 1 + |tail|, room - 1 - |tail|, refusal).0;
        var chunk := Chunk(sequence, n(a[0]).value, a[0]);
        assert ([chunk] + tail) + second == [chunk] + (tail + second);
      }
    }
  }

  class Pipeline {
    const chunker: TextChunker
    const normalizer: Normalizer
    var sequence: nat
    var closed: bool
    // Everything ever put on the output channel.
    var output: seq<Chunk>

    // Every chunk's number is its place in the output.
    ghost predicate Valid()
      reads this
    {
      chunker.Valid() && sequence == |output| && forall i | 0 <= i < |output| :: output[i].sequence == i
    }

    // The output once these chunks have been handed on, and how that ended.
    ghost function Emitted(chunks: seq<string>, room: nat, refusal: Outcome): (seq<Chunk>, Outcome)
      reads this
    {
      var (out, outcome) := Numbered(normalizer, chunks, sequence, room, refusal);
      (output + out, outcome)
    }

    // What a delta makes of the buffer.
    ghost function Taken(delta: string): Extraction
      requires Valid()
      reads this, chunker
    {
      if delta == "" then Extraction([], chunker.buffer)
      else Extract(chunker.Limit(), chunker.buffer + delta, false)
    }

    // What a flush finds in it.
    ghost function Left(): Extraction
      requires Valid()
      reads this, chunker
    {
      Extract(chunker.Limit(), chunker.buffer, true)
    }

    constructor (soft: int, hard: int, normalizer: Normalizer)
      ensures Valid() && !closed && output == [] && chunker.buffer == "" && chunker.Limit() == MakeLimits(soft, hard)
      ensures fresh(chunker) && this.normalizer == normalizer
    {
      chunker := new TextChunker(soft, hard);
      this.normalizer := normalizer;
      sequence, closed, output := 0, false, [];
    }

    // room: how many chunks go out before the context ends or, for the non-blocking
    // calls, the channel is full; refusal says which of the two.
    method EmitChunks(chunks: seq<string>, room: nat, refusal: Outcome) returns (outcome: Outcome)
      requires Valid() && refusal in [ContextDone, Full]
      modifies this`sequence, this`output
      ensures Valid()
      ensures (output, outcome) == old(Emitted(chunks, room, refusal))
      ensures outcome in [Sent, BadText, refusal]
    {
      var left := room;
      ghost var all := Numbered(normalizer, chunks, sequence, room, refusal);
      for i := 0 to |chunks|
        invariant Valid()
        invariant old(output) + all.0 == output + Numbered(normalizer, chunks[i..], sequence, left, refusal).0
        invariant all.1 == Numbered(normalizer, chunks[i..], sequence, left, refusal).1
      {
        assert chunks[i..][0] == chunks[i] && chunks[i..][1..] == chunks[i + 1..];
        var normalized := normalizer(chunks[i]);
        assert output + [] == output;
        if normalized.None? { return BadText; }
        if normalized.value == "" { continue; }
        if left == 0 { return refusal; }
        var chunk := Chunk(sequence, normalized.value, chunks[i]);
        ghost var rest := Numbered(normalizer, chunks[i + 1..], sequence + 1, left - 1, refusal).0;
        assert output + ([chunk] + rest) == (output + [chunk]) + rest;
        output := output + [chunk];
        sequence := sequence + 1;
        left := left - 1;
      }
      assert chunks[|chunks|..] == [] && output + [] == output;
      return Sent;
    }

    // A closed pipeline takes nothing more. The delta is in the buffer, or cut into
    // chunks, whether or not they all go out.
    method Push(delta: string, room: nat) returns (outcome: Outcome)
      requires Valid()
      modifies this`sequence, this`output, chunker
      ensures Valid() && closed == old(closed)
      ensures closed ==> outcome == Closed && output == old(output) && chunker.buffer == old(chunker.buffer)
      ensures !closed ==> (output, outcome) == old(Emitted(Taken(delta).chunks, room, ContextDone))
      ensures !closed ==> outcome in [Sent, BadText, ContextDone] && chunker.buffer == old(Taken(delta).rest)
    {
      if closed { return Closed; }
      var chunks := chunker.Push(delta);
      outcome := EmitChunks(chunks, room, ContextDone);
    }

    // Hands on what is left and stays open.
    method Flush(room: nat) returns (outcome: Outcome)
      requires Valid()
      modifies this`sequence, this`output, chunker
      ensures Valid() && closed == old(closed)
      ensures closed ==> outcome == Closed && output == old(output) && chunker.buffer == old(chunker.buffer)
      ensures !closed ==> (output, outcome) == old(Emitted(Left().chunks, room, ContextDone))
      ensures !closed ==> outcome in [Sent, BadText, ContextDone] && chunker.buffer == ""
    {
      if closed { return Closed; }
      var chunks := chunker.Flush();
      outcome := EmitChunks(chunks, room, ContextDone);
    }

    // Closing hands on what is left; it closes even when that fails.
    method Close(room: nat) returns (outcome: Outcome)
      requires Valid()
      modifies this, chunker
      ensures Valid() && closed
      ensures old(closed) ==> outcome == Sent && output == old(output) && chunker.buffer == old(chunker.buffer)
      ensures !old(closed) ==> (output, outcome) == old(Emitted(Left().chunks, room, ContextDone))
      ensures !old(closed) ==> outcome in [Sent, BadText, ContextDone] && chunker.buffer == ""
    {
      if closed { return Sent; }
      var chunks := chunker.Flush();
      outcome := EmitChunks(chunks, room, ContextDone);
      closed := true;
    }

    // The forms that never wait: `held` says that another call has the lock. Nothing
    // has happened when it has.
    method TryPush(delta: string, held: bool, room: nat, refusal: Outcome) returns (outcome: Outcome)
      requires Valid() && refusal in [ContextDone, Full]
      modifies this`sequence, this`output, chunker
      ensures Valid() && closed == old(closed)
      ensures held ==> outcome == Full
      ensures !held && closed ==> outcome == Closed
      ensures held || closed ==> output == old(output) && chunker.buffer == old(chunker.buffer)
      ensures !held && !closed ==> (output, outcome) == old(Emitted(Taken(delta).chunks, room, refusal))
      ensures !held && !closed ==> outcome in [Sent, BadText, refusal] && chunker.buffer == old(Taken(delta).rest)
    {
      if held { return Full; }
      if closed { return Closed; }
      var chunks := chunker.Push(delta);
      outcome := EmitChunks(chunks, room, refusal);
    }

    // Unlike Close this one stays open when it fails, with nothing left to flush: a
    // second call closes and what did not go out is lost.
    method TryClose(held: bool, room: nat, refusal: Outcome) returns (outcome: Outcome)
      requires Valid() && refusal in [ContextDone, Full]
      modifies this, chunker
      ensures Valid() && closed == (old(closed) || outcome == Sent)
      ensures held ==> outcome == Full
      ensures !held && old(closed) ==> outcome == Sent
      ensures held || old(closed) ==> output == old(output) && chunker.buffer == old(chunker.buffer)
      ensures !held && !old(closed) ==> (output, outcome) == old(Emitted(Left().chunks, room, refusal))
      ensures !held && !old(closed) ==> outcome in [Sent, BadText, refusal] && chunker.buffer == ""
    {
      if held { return Full; }
      if closed { return Sent; }
      var chunks := chunker.Flush();
      outcome := EmitChunks(chunks, room, refusal);
      if outcome != Sent { return; }
      closed := true;
    }

    method Cancel()
      requires Valid()
      modifies this`closed
      ensures Valid() && closed
    {
      closed := true;
    }
  }
}
