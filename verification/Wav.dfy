// The writer the recogniser uses, the server's decoder, and the two client
// readers, each with its own loop, against the chunk grammar of WavModel.
module Wav {
  import opened Options
  import opened WavModel

  datatype Code = IncompleteAudio | UnsupportedFormat

  datatype Result<+T> = Ok(value: T) | Err(code: Code)

  // --- how the chunks seen so far relate to the rest --------------------------

  ghost predicate Read(whole: Option<seq<Chunk>>, seen: seq<Chunk>, rest: Option<seq<Chunk>>) {
    whole == if rest.None? then None else Some(seen + rest.value)
  }

  lemma ReadOn(whole: Option<seq<Chunk>>, seen: seq<Chunk>, c: Chunk, rest: Option<seq<Chunk>>,
      next: Option<seq<Chunk>>)
    requires Read(whole, seen, rest)
    requires rest == if next.None? then None else Some([c] + next.value)
    ensures Read(whole, seen + [c], next)
    ensures Named(seen + [c], FMT) == Named(seen, FMT) + (if c.id == FMT then [c.body] else [])
    ensures Named(seen + [c], DATA) == Named(seen, DATA) + (if c.id == DATA then [c.body] else [])
  {
    if next.Some? { assert seen + ([c] + next.value) == seen + [c] + next.value; }
    NamedConcat(seen, [c], FMT);
    NamedConcat(seen, [c], DATA);
    assert [c][1..] == [];
  }

  // A chunk that breaks the rules breaks the file, whatever follows it.
  lemma BadChunk(wav: seq<byte>, seen: seq<Chunk>, next: Option<seq<Chunk>>)
    requires |wav| >= 12 && Read(Chunks(wav[12..]), seen, next)
    requires
      || |Named(seen, FMT)| > 1 || (|Named(seen, FMT)| == 1 && !Standard(Named(seen, FMT)[0]))
      || |Named(seen, DATA)| > 1 || (|Named(seen, DATA)| == 1 && |Named(seen, DATA)[0]| % 2 != 0)
    ensures forall pcm :: !Accepts(wav, pcm)
  {
    hide Standard, Chunks, Named;
    if next.Some? {
      NamedConcat(seen, next.value, FMT);
      NamedConcat(seen, next.value, DATA);
      var fs, ds := Named(seen + next.value, FMT), Named(seen + next.value, DATA);
      assert Named(seen, FMT) != [] ==> fs[0] == Named(seen, FMT)[0];
      assert Named(seen, DATA) != [] ==> ds[0] == Named(seen, DATA)[0];
      assert forall pcm: seq<byte> :: [pcm][0] == pcm;
    }
  }

  lemma ShortFormat(wav: seq<byte>, seen: seq<Chunk>, next: Option<seq<Chunk>>, f: seq<byte>)
    requires |wav| >= 12 && Read(Loose(After(wav, 12)), seen, next)
    requires f in Named(seen, FMT) && |f| < 16
    ensures forall p :: !Decodes(wav, p)
  {
    hide Loose, Named, U16, U32;
    if next.Some? { NamedConcat(seen, next.value, FMT); }
  }

  // --- positions in the file --------------------------------------------------

  lemma U32Slice(s: seq<byte>, p: nat, i: nat)
    requires p + i + 4 <= |s|
    ensures U32(s[p..], i) == U32(s, p + i)
  {
    assert s[p..][i..i + 4] == s[p + i..p + i + 4];
    hide U32;
    U32At(s[p..], s, i, p + i);
  }

  lemma Fields(s: seq<byte>, p: nat, end: nat)
    requires p + 16 <= end <= |s|
    ensures U16(s[p..end], 0) == U16(s, p) && U16(s[p..end], 2) == U16(s, p + 2) && U32(s[p..end], 4) == U32(s, p + 4)
    ensures U32(s[p..end], 8) == U32(s, p + 8) && U16(s[p..end], 12) == U16(s, p + 12)
            && U16(s[p..end], 14) == U16(s, p + 14)
  {
  }

  lemma StandardFields(f: seq<byte>)
    ensures |f| >= 16 ==>
      (Standard(f) <==>
         && U16(f, 0) == 1 && U16(f, 2) == 1 && U32(f, 4) == 16000 && U32(f, 8) == 32000
         && U16(f, 12) == 2 && U16(f, 14) == 16)
    ensures |f| < 16 ==> !Standard(f)
  {
    hide U16, U32;
  }

  lemma ChunksEnd(s: seq<byte>, p: nat)
    requires p < |s|
    requires p + 8 <= |s| ==> p + 8 + U32(s, p + 4) + U32(s, p + 4) % 2 > |s|
    ensures Chunks(s[p..]) == None
  {
    hide U32;
    if p + 8 <= |s| { U32Slice(s, p, 4); }
  }

  lemma ChunksStep(s: seq<byte>, p: nat)
    requires p + 8 <= |s| && p + 8 + U32(s, p + 4) + U32(s, p + 4) % 2 <= |s|
    ensures var end := p + 8 + U32(s, p + 4); var next := Chunks(s[end + U32(s, p + 4) % 2..]);
      Chunks(s[p..]) == if next.None? then None else Some([Chunk(s[p..p + 4], s[p + 8..end])] + next.value)
  {
    hide U32;
    U32Slice(s, p, 4);
    var n := U32(s, p + 4);
    assert s[p..][8 + n + n % 2..] == s[p + 8 + n + n % 2..];
    assert s[p..][..4] == s[p..p + 4] && s[p..][8..8 + n] == s[p + 8..p + 8 + n];
  }

  lemma LooseEnd(s: seq<byte>, p: nat)
    requires p + 8 <= |s| && p + 8 + U32(s, p + 4) > |s|
    ensures Loose(After(s, p)) == None
  {
    hide U32;
    U32Slice(s, p, 4);
  }

  lemma LooseStep(s: seq<byte>, p: nat)
    requires p + 8 <= |s| && p + 8 + U32(s, p + 4) <= |s|
    ensures var end := p + 8 + U32(s, p + 4); var next := Loose(After(s, p + 8 + Aligned(U32(s, p + 4))));
      Loose(After(s, p)) == if next.None? then None else Some([Chunk(s[p..p + 4], s[p + 8..end])] + next.value)
  {
    hide U32;
    U32Slice(s, p, 4);
    var n := U32(s, p + 4);
    assert s[p..][if 8 + n + n % 2 > |s[p..]| then |s[p..]| else 8 + n + n % 2..] == After(s, p + 8 + n + n % 2);
    assert s[p..][..4] == s[p..p + 4] && s[p..][8..8 + n] == s[p + 8..p + 8 + n];
  }

  predicate Odd(n: nat) { n % 2 != 0 }

  // Rounded up to whole words.
  function Aligned(n: nat): (r: nat)
    ensures n <= r <= n + 1
  {
    if Odd(n) then n + 1 else n
  }

  // The decoder may step one byte past the end when the last pad is missing.
  function After(s: seq<byte>, p: nat): seq<byte> { if p > |s| then [] else s[p..] }

  // What the strict readers remember of the chunks so far.
  ghost predicate Counted(seen: seq<Chunk>, valid: bool, pcm: Option<seq<byte>>) {
    && |Named(seen, FMT)| == (if valid then 1 else 0) && (valid ==> Standard(Named(seen, FMT)[0]))
    && Named(seen, DATA) == (if pcm.Some? then [pcm.value] else [])
    && (pcm.Some? ==> |pcm.value| % 2 == 0)
  }

  // What the decoder remembers.
  ghost predicate Latest(seen: seq<Chunk>, formatFound: bool, dataFound: bool, audioFormat: nat, channels: nat,
      sampleRate: nat, bits: nat, pcmData: seq<byte>) {
    var fs := Named(seen, FMT);
    var ds := Named(seen, DATA);
    && (formatFound <==> fs != []) && (dataFound <==> ds != [])
    && (forall f | f in fs :: |f| >= 16)
    && (fs != [] ==> |Last(fs)| >= 16 && U16(Last(fs), 0) == audioFormat && U16(Last(fs), 2) == channels
                     && U32(Last(fs), 4) == sampleRate && U16(Last(fs), 14) == bits)
    && (ds != [] ==> Last(ds) == pcmData)
  }

  lemma LatestNone()
    ensures Latest([], false, false, 0, 0, 0, 0, [])
  {
  }

  lemma LatestFormat(seen: seq<Chunk>, c: Chunk, formatFound: bool, dataFound: bool, audioFormat: nat, channels: nat,
      sampleRate: nat, bits: nat, pcmData: seq<byte>)
    requires Latest(seen, formatFound, dataFound, audioFormat, channels, sampleRate, bits, pcmData)
    requires Named(seen + [c], FMT) == Named(seen, FMT) + (if c.id == FMT then [c.body] else [])
    requires Named(seen + [c], DATA) == Named(seen, DATA) + (if c.id == DATA then [c.body] else [])
    requires c.id == FMT && |c.body| >= 16
    ensures Latest(seen + [c], true, dataFound, U16(c.body, 0), U16(c.body, 2), U32(c.body, 4), U16(c.body, 14),
                   pcmData)
  {
    hide Named, U16, U32;
    assert FMT[0] != DATA[0];
    assert Last(Named(seen + [c], FMT)) == c.body;
  }

  lemma LatestData(seen: seq<Chunk>, c: Chunk, formatFound: bool, dataFound: bool, audioFormat: nat, channels: nat,
      sampleRate: nat, bits: nat, pcmData: seq<byte>)
    requires Latest(seen, formatFound, dataFound, audioFormat, channels, sampleRate, bits, pcmData)
    requires Named(seen + [c], FMT) == Named(seen, FMT) + (if c.id == FMT then [c.body] else [])
    requires Named(seen + [c], DATA) == Named(seen, DATA) + (if c.id == DATA then [c.body] else [])
    requires c.id == DATA
    ensures Latest(seen + [c], formatFound, true, audioFormat, channels, sampleRate, bits, c.body)
  {
    hide Named, U16, U32;
    assert FMT[0] != DATA[0];
    assert Last(Named(seen + [c], DATA)) == c.body;
  }

  lemma LatestOther(seen: seq<Chunk>, c: Chunk, formatFound: bool, dataFound: bool, audioFormat: nat, channels: nat,
      sampleRate: nat, bits: nat, pcmData: seq<byte>)
    requires Latest(seen, formatFound, dataFound, audioFormat, channels, sampleRate, bits, pcmData)
    requires Named(seen + [c], FMT) == Named(seen, FMT) + (if c.id == FMT then [c.body] else [])
    requires Named(seen + [c], DATA) == Named(seen, DATA) + (if c.id == DATA then [c.body] else [])
    requires c.id != DATA && c.id != FMT
    ensures Latest(seen + [c], formatFound, dataFound, audioFormat, channels, sampleRate, bits, pcmData)
  {
    hide Named, U16, U32;
  }

  lemma NoHeader(data: seq<byte>)
    ensures |data| < 12 || data[..4] != RIFF || data[8..12] != WAVE ==> forall p :: !Decodes(data, p)
  {
    hide Loose, Playable;
  }

  lemma NoChunks(data: seq<byte>, seen: seq<Chunk>)
    requires |data| >= 12 && Read(Loose(After(data, 12)), seen, None)
    ensures forall p :: !Decodes(data, p)
  {
    hide Loose, Playable;
  }

  lemma LatestDone(data: seq<byte>, end: nat, seen: seq<Chunk>, formatFound: bool, dataFound: bool, audioFormat: nat,
      channels: nat, sampleRate: nat, bits: nat, pcmData: seq<byte>)
    requires |data| >= 12 && data[..4] == RIFF && data[8..12] == WAVE
    requires end + 8 > |data| && Read(Loose(After(data, 12)), seen, Loose(After(data, end)))
    requires Latest(seen, formatFound, dataFound, audioFormat, channels, sampleRate, bits, pcmData)
    ensures forall p :: Decodes(data, p) <==>
      && formatFound && dataFound && audioFormat == 1 && bits == 16 && !Odd(|pcmData|)
      && channels > 0 && sampleRate > 0 && p == Pcm(pcmData, sampleRate, channels)
  {
    hide Named, U16, U32;
    assert Loose(After(data, end)) == Some([]);
    assert seen + [] == seen;
  }

  lemma Begin(whole: Option<seq<Chunk>>)
    ensures Read(whole, [], whole) && Named([], FMT) == [] && Named([], DATA) == []
  {
    if whole.Some? { assert [] + whole.value == whole.value; }
  }

  // At the end of the file the counts decide.
  lemma Done(wav: seq<byte>, seen: seq<Chunk>, valid: bool, pcm: Option<seq<byte>>)
    requires Complete(wav) && Read(Chunks(wav[12..]), seen, Chunks(wav[|wav|..])) && Counted(seen, valid, pcm)
    ensures forall got :: Accepts(wav, got) <==> valid && pcm == Some(got) && |got| > 0
  {
    hide Standard, Named, U32;
    assert wav[|wav|..] == [];
    assert seen + [] == seen;
  }

  // --- the client readers -----------------------------------------------------

  // TypeScript. Every refusal carries the same code.
  method WavToPcm(wav: seq<byte>) returns (r: Result<seq<byte>>)
    ensures forall pcm :: Accepts(wav, pcm) <==> r == Ok(pcm)
    ensures r.Err? ==> r.code == UnsupportedFormat
  {
    hide U16, U32, Chunks, Named, Standard;
    if |wav| < 12 || wav[..4] != RIFF || wav[8..12] != WAVE || U32(wav, 4) + 8 != |wav| {
      return Err(UnsupportedFormat);
    }
    var valid := false;
    var pcm: Option<seq<byte>> := None;
    var p := 12;
    ghost var seen: seq<Chunk> := [];
    Begin(Chunks(wav[12..]));
    while p < |wav|
      invariant 12 <= p <= |wav|
      invariant Read(Chunks(wav[12..]), seen, Chunks(wav[p..]))
      invariant Counted(seen, valid, pcm)
    {
      if p + 8 > |wav| {
        ChunksEnd(wav, p);
        return Err(UnsupportedFormat);
      }
      var n := U32(wav, p + 4);
      var end := p + 8 + n;
      if end + n % 2 > |wav| {
        ChunksEnd(wav, p);
        return Err(UnsupportedFormat);
      }
      ghost var c := Chunk(wav[p..p + 4], wav[p + 8..end]);
      ghost var next := Chunks(wav[end + n % 2..]);
      ChunksStep(wav, p);
      ReadOn(Chunks(wav[12..]), seen, c, Chunks(wav[p..]), next);
      if n >= 16 { Fields(wav, p + 8, end); }
      if wav[p..p + 4] == FMT {
        if valid || n < 16 || U16(wav, p + 8) != 1 || U16(wav, p + 10) != 1 || U32(wav, p + 12) != 16000
          || U32(wav, p + 16) != 32000 || U16(wav, p + 20) != 2 || U16(wav, p + 22) != 16
        {
          StandardFields(c.body);
          BadChunk(wav, seen + [c], next);
          return Err(UnsupportedFormat);
        }
        StandardFields(c.body);
        valid := true;
      } else if wav[p..p + 4] == DATA {
        if pcm.Some? || n % 2 != 0 {
          BadChunk(wav, seen + [c], next);
          return Err(UnsupportedFormat);
        }
        pcm := Some(wav[p + 8..end]);
      }
      seen := seen + [c];
      p := end + n % 2;
    }
    Done(wav, seen, valid, pcm);
    if !valid || pcm.None? || |pcm.value| == 0 {
      return Err(UnsupportedFormat);
    }
    return Ok(pcm.value);
  }

  // Python, first half; also the check for truncated speech responses.
  method ValidateSpeechWav(audio: seq<byte>) returns (ok: bool)
    ensures ok <==> Complete(audio)
  {
    ok := !(|audio| < 12 || audio[..4] != RIFF || audio[8..12] != WAVE || U32(audio, 4) + 8 != |audio|);
  }

  // Python. The same files pass; a bad outer header has a code of its own.
  method WavToPcmPython(audio: seq<byte>) returns (r: Result<seq<byte>>)
    ensures forall pcm :: Accepts(audio, pcm) <==> r == Ok(pcm)
    ensures r.Err? ==> (r.code == IncompleteAudio <==> !Complete(audio))
  {
    hide U16, U32, Chunks, Named, Standard, Speech;
    var complete := ValidateSpeechWav(audio);
    if !complete {
      return Err(IncompleteAudio);
    }
    var pos, valid := 12, false;
    var pcm: Option<seq<byte>> := None;
    ghost var seen: seq<Chunk> := [];
    Begin(Chunks(audio[12..]));
    while pos < |audio|
      invariant 12 <= pos <= |audio|
      invariant Read(Chunks(audio[12..]), seen, Chunks(audio[pos..]))
      invariant Counted(seen, valid, pcm)
    {
      if pos + 8 > |audio| {
        ChunksEnd(audio, pos);
        return Err(UnsupportedFormat);
      }
      var tag, size := audio[pos..pos + 4], U32(audio, pos + 4);
      var end := pos + 8 + size;
      if end + size % 2 > |audio| {
        ChunksEnd(audio, pos);
        return Err(UnsupportedFormat);
      }
      ghost var c := Chunk(tag, audio[pos + 8..end]);
      ghost var next := Chunks(audio[end + size % 2..]);
      ChunksStep(audio, pos);
      ReadOn(Chunks(audio[12..]), seen, c, Chunks(audio[pos..]), next);
      if size >= 16 { Fields(audio, pos + 8, end); }
      if tag == FMT {
        if valid || size < 16
          || (U16(audio, pos + 8), U16(audio, pos + 10), U32(audio, pos + 12), U32(audio, pos + 16),
              U16(audio, pos + 20), U16(audio, pos + 22))
             != (1, 1, 16000, 32000, 2, 16)
        {
          StandardFields(c.body);
          BadChunk(audio, seen + [c], next);
          return Err(UnsupportedFormat);
        }
        StandardFields(c.body);
        valid := true;
      } else if tag == DATA {
        if pcm.Some? || size % 2 != 0 {
          BadChunk(audio, seen + [c], next);
          return Err(UnsupportedFormat);
        }
        pcm := Some(audio[pos + 8..end]);
      }
      seen := seen + [c];
      pos := end + size % 2;
    }
    Done(audio, seen, valid, pcm);
    if !valid || pcm.None? || |pcm.value| == 0 {
      return Err(UnsupportedFormat);
    }
    return Ok(pcm.value);
  }

  // --- the server's decoder ---------------------------------------------------

  method DecodeWav(data: seq<byte>) returns (r: Option<Pcm>)
    ensures forall p :: Decodes(data, p) <==> r == Some(p)
  {
    hide *;
    NoHeader(data);
    if |data| < 12 { return None; }
    if data[..4] != RIFF { return None; }
    if data[8..12] != WAVE { return None; }
    var formatFound, dataFound := false, false;
    var audioFormat, channels, sampleRate, bits := 0, 0, 0, 0;
    var pcmData: seq<byte> := [];
    var offset := 12;
    ghost var seen: seq<Chunk> := [];
    ghost var whole := Loose(After(data, 12));
    ghost var rest := whole;
    Begin(whole);
    LatestNone();
    while offset + 8 <= |data|
      invariant 12 <= offset
      invariant rest == Loose(After(data, offset)) && Read(whole, seen, rest)
      invariant Latest(seen, formatFound, dataFound, audioFormat, channels, sampleRate, bits, pcmData)
      decreases |data| - offset
    {
      var chunkId, chunkSize := data[offset..offset + 4], U32(data, offset + 4);
      if offset + 8 + chunkSize > |data| {
        LooseEnd(data, offset);
        NoChunks(data, seen);
        return None;
      }
      var chunk := data[offset + 8..offset + 8 + chunkSize];
      ghost var next := Loose(After(data, offset + 8 + Aligned(chunkSize)));
      LooseStep(data, offset);
      ghost var c := Chunk(chunkId, chunk);
      ReadOn(whole, seen, c, rest, next);
      rest := next;
      if chunkId == FMT {
        if |chunk| < 16 {
          ShortFormat(data, seen + [c], next, chunk);
          return None;
        }
        LatestFormat(seen, c, formatFound, dataFound, audioFormat, channels, sampleRate, bits, pcmData);
        audioFormat := U16(chunk, 0);
        channels := U16(chunk, 2);
        sampleRate := U32(chunk, 4);
        bits := U16(chunk, 14);
        formatFound := true;
      } else if chunkId == DATA {
        LatestData(seen, c, formatFound, dataFound, audioFormat, channels, sampleRate, bits, pcmData);
        pcmData := chunk;
        dataFound := true;
      } else {
        LatestOther(seen, c, formatFound, dataFound, audioFormat, channels, sampleRate, bits, pcmData);
      }
      seen := seen + [c];
      offset := offset + 8 + Aligned(chunkSize);
    }
    LatestDone(data, offset, seen, formatFound, dataFound, audioFormat, channels, sampleRate, bits, pcmData);
    if !formatFound { return None; }
    if !dataFound { return None; }
    if audioFormat != 1 { return None; }
    if channels == 0 { return None; }
    if sampleRate == 0 { return None; }
    if bits != 16 { return None; }
    if Odd(|pcmData|) { return None; }
    return Some(Pcm(pcmData, sampleRate, channels));
  }

  // --- the recogniser's writer ------------------------------------------------

  method Copy(header: array<byte>, at: nat, s: seq<byte>)
    requires at + |s| <= header.Length
    modifies header
    ensures header[..at + |s|] == old(header[..at]) + s
    ensures forall i | at + |s| <= i < header.Length :: header[i] == old(header[i])
  {
    forall i | 0 <= i < |s| { header[at + i] := s[i]; }
  }

  // The sixteen bytes of the format chunk, field by field.
  method CopyFormat(header: array<byte>, at: nat)
    requires at + 16 <= header.Length
    modifies header
    ensures header[..at + 16] == old(header[..at]) + FORMAT
    ensures forall i | at + 16 <= i < header.Length :: header[i] == old(header[i])
  {
    hide Le32, Le16;
    Copy(header, at, Le16(1));
    Copy(header, at + 2, Le16(1));
    Copy(header, at + 4, Le32(16000));
    Copy(header, at + 8, Le32(32000));
    Copy(header, at + 12, Le16(2));
    Copy(header, at + 14, Le16(16));
    ghost var before := old(header[..at]);
    assert header[..at + 16] == before + Le16(1) + Le16(1) + Le32(16000) + Le32(32000) + Le16(2) + Le16(16);
    assert before + Le16(1) + Le16(1) + Le32(16000) + Le32(32000) + Le16(2) + Le16(16) == before + FORMAT;
  }

  method WriteWav(pcm: seq<byte>) returns (out: seq<byte>)
    ensures out == Written(pcm)
  {
    hide Le32, Le16;
    var header := new byte[44](_ => 0);
    Copy(header, 0, RIFF);
    Copy(header, 4, Le32(|pcm| + 36));
    Copy(header, 8, WAVE + FMT);
    assert header[..16] == RIFF + Le32(|pcm| + 36) + WAVE + FMT;
    Copy(header, 16, Le32(16));
    CopyFormat(header, 20);
    Copy(header, 36, DATA);
    Copy(header, 40, Le32(|pcm|));
    assert header[..] == header[..44];
    out := header[..] + pcm;
  }
}
