// The bytes themselves: what the header of a written file looks like, what a
// standard format is, and which chunks of a file count.
module WavBytes {
  import opened Options
  import opened WavModel

  // Four bytes that spell a tag.
  predicate Spells(s: seq<byte>, tag: string) {
    |s| == 4 && |tag| == 4 && forall i | 0 <= i < 4 :: s[i] as int == tag[i] as int
  }

  lemma TagsExact(s: seq<byte>)
    ensures s == RIFF <==> Spells(s, "RIFF")
    ensures s == WAVE <==> Spells(s, "WAVE")
    ensures s == FMT <==> Spells(s, "fmt ")
    ensures s == DATA <==> Spells(s, "data")
  {
    var tags := ["RIFF", "WAVE", "fmt ", "data"];
    assert tags[0] == ['R', 'I', 'F', 'F'] && tags[1] == ['W', 'A', 'V', 'E'];
    assert tags[2] == ['f', 'm', 't', ' '] && tags[3] == ['d', 'a', 't', 'a'];
    if |s| == 4 {
      assert s == RIFF <==> s[0] == 82 && s[1] == 73 && s[2] == 70 && s[3] == 70;
      assert s == WAVE <==> s[0] == 87 && s[1] == 65 && s[2] == 86 && s[3] == 69;
      assert s == FMT <==> s[0] == 102 && s[1] == 109 && s[2] == 116 && s[3] == 32;
      assert s == DATA <==> s[0] == 100 && s[1] == 97 && s[2] == 116 && s[3] == 97;
    }
  }

  // Least significant byte first.
  predicate LittleEndian(s: seq<byte>, n: nat) {
    |s| == 4 && s[0] as int == n % 256 && s[1] as int == n / 256 % 256 && s[2] as int == n / 65536 % 256
    && s[3] as int == n / 16777216 % 256
  }

  lemma Le32Exact(n: nat)
    ensures LittleEndian(Le32(n), n)
  {
  }

  lemma FormatBytes()
    ensures FORMAT == [1, 0, 1, 0, 0x80, 0x3E, 0, 0, 0x00, 0x7D, 0, 0, 2, 0, 16, 0]
  {
    assert Le16(1) == [1, 0] && Le16(2) == [2, 0] && Le16(16) == [16, 0];
    assert Le32(16000) == [0x80, 0x3E, 0, 0] && Le32(32000) == [0x00, 0x7D, 0, 0];
  }

  // The header of a written file, byte for byte: 16 kHz, one channel, 16 bits.
  lemma HeaderExact(pcm: seq<byte>)
    ensures var w := Written(pcm);
            && |w| == 44 + |pcm| && Spells(w[0..4], "RIFF") && LittleEndian(w[4..8], |pcm| + 36)
            && Spells(w[8..12], "WAVE") && Spells(w[12..16], "fmt ") && w[16..20] == [16, 0, 0, 0]
            && w[20..36] == [1, 0, 1, 0, 0x80, 0x3E, 0, 0, 0x00, 0x7D, 0, 0, 2, 0, 16, 0]
            && Spells(w[36..40], "data") && LittleEndian(w[40..44], |pcm|) && w[44..] == pcm
  {
    var w := Written(pcm);
    FormatBytes();
    assert Le32(16) == [16, 0, 0, 0];
    Le32Exact(|pcm| + 36);
    Le32Exact(|pcm|);
    hide Le32, LittleEndian, Spells, Le16;
    HeaderParts(pcm);
    TagsExact(w[0..4]);
    TagsExact(w[8..12]);
    TagsExact(w[12..16]);
    TagsExact(w[36..40]);
  }

  lemma HeaderParts(pcm: seq<byte>)
    requires |FORMAT| == 16
    ensures var w := Written(pcm);
            && |w| == 44 + |pcm| && w[0..4] == RIFF && w[4..8] == Le32(|pcm| + 36) && w[8..12] == WAVE
            && w[12..16] == FMT && w[16..20] == Le32(16) && w[20..36] == FORMAT && w[36..40] == DATA
            && w[40..44] == Le32(|pcm|) && w[44..] == pcm
  {
    hide Le32;
  }

  // --- formats ----------------------------------------------------------------

  // PCM, one channel, 16000 frames of two bytes a second, 16 bits.
  predicate SpeechFormat(f: seq<byte>) {
    && |f| >= 16 && f[0] == 1 && f[1] == 0 && f[2] == 1 && f[3] == 0
    && f[4] == 0x80 && f[5] == 0x3E && f[6] == 0 && f[7] == 0
    && f[8] == 0x00 && f[9] == 0x7D && f[10] == 0 && f[11] == 0
    && f[12] == 2 && f[13] == 0 && f[14] == 16 && f[15] == 0
  }

  lemma Bytes16(a: byte, b: byte, n: nat)
    requires n < 256
    ensures a as int + 256 * (b as int) == n <==> a as int == n && b == 0
  {
  }

  lemma Bytes32(a: byte, b: byte, c: byte, d: byte, x: nat, y: nat)
    requires x < 256 && y < 256
    ensures a as int + 256 * (b as int) + 65536 * (c as int) + 16777216 * (d as int) == x + 256 * y
            <==> a as int == x && b as int == y && c == 0 && d == 0
  {
  }

  lemma StandardExact(f: seq<byte>)
    ensures Standard(f) <==> SpeechFormat(f)
  {
    if |f| >= 16 {
      Bytes16(f[0], f[1], 1);
      Bytes16(f[2], f[3], 1);
      Bytes16(f[12], f[13], 2);
      Bytes16(f[14], f[15], 16);
      Bytes32(f[4], f[5], f[6], f[7], 0x80, 0x3E);
      Bytes32(f[8], f[9], f[10], f[11], 0x00, 0x7D);
    }
  }

  // --- which chunks count -----------------------------------------------------

  predicate OneAt(cs: seq<Chunk>, tag: string, i: nat) {
    i < |cs| && Spells(cs[i].id, tag) && forall k | 0 <= k < |cs| && k != i :: !Spells(cs[k].id, tag)
  }

  predicate LastAt(cs: seq<Chunk>, tag: string, i: nat) {
    i < |cs| && Spells(cs[i].id, tag) && forall k | i < k < |cs| :: !Spells(cs[k].id, tag)
  }

  // The bodies of one name are those of its chunks, in order.
  lemma {:induction false} NamedNone(cs: seq<Chunk>, id: seq<byte>)
    ensures Named(cs, id) == [] <==> forall k | 0 <= k < |cs| :: cs[k].id != id
  {
    if cs != [] {
      NamedNone(cs[1..], id);
      if forall k | 0 <= k < |cs| :: cs[k].id != id {
        forall k | 0 <= k < |cs[1..]| ensures cs[1..][k].id != id { assert cs[1..][k] == cs[k + 1]; }
      } else if cs[0].id != id {
        var k :| 0 <= k < |cs| && cs[k].id == id;
        assert cs[1..][k - 1].id == id;
      }
    }
  }

  // Exactly one chunk of this name, with this body.
  predicate Only(cs: seq<Chunk>, id: seq<byte>, body: seq<byte>, i: nat) {
    i < |cs| && cs[i] == Chunk(id, body) && forall k | 0 <= k < |cs| && k != i :: cs[k].id != id
  }

  lemma {:induction false} NamedOnly(cs: seq<Chunk>, id: seq<byte>, body: seq<byte>) returns (i: nat)
    requires Named(cs, id) == [body]
    ensures Only(cs, id, body, i)
  {
    var rest := cs[1..];
    if cs[0].id == id {
      i := 0;
      assert Named(cs, id)[0] == cs[0].body;
      assert |Named(rest, id)| == 0;
      NamedNone(rest, id);
      forall k | 0 <= k < |cs| && k != 0 ensures cs[k].id != id { assert cs[k] == rest[k - 1]; }
    } else {
      assert Named(rest, id) == [body];
      var j := NamedOnly(rest, id, body);
      i := j + 1;
      assert cs[i] == rest[j];
      forall k | 0 <= k < |cs| && k != i ensures cs[k].id != id { if k > 0 { assert cs[k] == rest[k - 1]; } }
    }
  }

  lemma {:induction false} OnlyNamed(cs: seq<Chunk>, id: seq<byte>, body: seq<byte>, i: nat)
    requires Only(cs, id, body, i)
    ensures Named(cs, id) == [body]
  {
    var rest := cs[1..];
    if i == 0 {
      forall k | 0 <= k < |rest| ensures rest[k].id != id { assert rest[k] == cs[k + 1]; }
      NamedNone(rest, id);
    } else {
      assert cs[0].id != id;
      forall k | 0 <= k < |rest| && k != i - 1 ensures rest[k].id != id { assert rest[k] == cs[k + 1]; }
      OnlyNamed(rest, id, body, i - 1);
    }
  }

  // A strict reader takes one standard format and one chunk of whole samples, and
  // leaves a file with two of either alone.
  lemma SpeechExact(cs: seq<Chunk>, pcm: seq<byte>)
    ensures Speech(cs, pcm) <==>
            exists i: nat, j: nat :: OneAt(cs, "fmt ", i) && OneAt(cs, "data", j) && SpeechParts(cs[i], cs[j], pcm)
  {
    hide Spells, Standard, Named, SpeechFormat;
    forall k | 0 <= k < |cs|
      ensures (cs[k].id == FMT <==> Spells(cs[k].id, "fmt ")) && (cs[k].id == DATA <==> Spells(cs[k].id, "data")) {
      TagsExact(cs[k].id);
    }
    if Speech(cs, pcm) {
      var f := Named(cs, FMT)[0];
      assert Named(cs, FMT) == [f];
      var i := NamedOnly(cs, FMT, f);
      var j := NamedOnly(cs, DATA, pcm);
      StandardExact(f);
      assert OneAt(cs, "fmt ", i) && OneAt(cs, "data", j) && SpeechParts(cs[i], cs[j], pcm);
    }
    if exists i: nat, j: nat :: OneAt(cs, "fmt ", i) && OneAt(cs, "data", j) && SpeechParts(cs[i], cs[j], pcm) {
      var i: nat, j: nat :| OneAt(cs, "fmt ", i) && OneAt(cs, "data", j) && SpeechParts(cs[i], cs[j], pcm);
      OnlyNamed(cs, FMT, cs[i].body, i);
      OnlyNamed(cs, DATA, pcm, j);
      StandardExact(cs[i].body);
    }
  }

  predicate SpeechParts(f: Chunk, d: Chunk, pcm: seq<byte>) {
    SpeechFormat(f.body) && d.body == pcm && pcm != [] && |pcm| % 2 == 0
  }

  // --- the server's decoder ---------------------------------------------------

  lemma {:induction false} NamedLast(cs: seq<Chunk>, id: seq<byte>, i: nat)
    requires i < |cs| && cs[i].id == id && forall k | i < k < |cs| :: cs[k].id != id
    ensures Named(cs, id) != [] && Last(Named(cs, id)) == cs[i].body
  {
    var rest := cs[1..];
    if i == 0 {
      forall k | 0 <= k < |rest| ensures rest[k].id != id { assert rest[k] == cs[k + 1]; }
      NamedNone(rest, id);
    } else {
      forall k | i - 1 < k < |rest| ensures rest[k].id != id { assert rest[k] == cs[k + 1]; }
      NamedLast(rest, id, i - 1);
    }
  }

  lemma {:induction false} LastNamed(cs: seq<Chunk>, id: seq<byte>) returns (i: nat)
    requires Named(cs, id) != []
    ensures i < |cs| && cs[i].id == id && forall k | i < k < |cs| :: cs[k].id != id
  {
    var rest := cs[1..];
    if Named(rest, id) != [] {
      var j := LastNamed(rest, id);
      i := j + 1;
      forall k | i < k < |cs| ensures cs[k].id != id { assert cs[k] == rest[k - 1]; }
    } else {
      i := 0;
      NamedNone(rest, id);
      forall k | 0 < k < |cs| ensures cs[k].id != id { assert cs[k] == rest[k - 1]; }
    }
  }

  lemma {:induction false} NamedMember(cs: seq<Chunk>, id: seq<byte>, body: seq<byte>)
    ensures body in Named(cs, id) <==> Chunk(id, body) in cs
  {
    if cs != [] {
      NamedMember(cs[1..], id, body);
      assert cs == [cs[0]] + cs[1..];
    }
  }

  // PCM of 16 bits, of whatever rate and number of channels.
  predicate PlayFormat(f: seq<byte>, rate: nat, channels: nat) {
    && |f| >= 16 && f[0] == 1 && f[1] == 0 && f[14] == 16 && f[15] == 0
    && f[2] as int + 256 * (f[3] as int) == channels > 0
    && f[4] as int + 256 * (f[5] as int) + 65536 * (f[6] as int) + 16777216 * (f[7] as int) == rate > 0
  }

  predicate PlayParts(f: Chunk, d: Chunk, p: Pcm) {
    PlayFormat(f.body, p.rate, p.channels) && d.body == p.data && |p.data| % 2 == 0
  }

  // The last format and the last data chunk count, and every format is long enough.
  lemma PlayableExact(cs: seq<Chunk>, p: Pcm)
    ensures Playable(cs, p) <==>
            && (forall k | 0 <= k < |cs| && Spells(cs[k].id, "fmt ") :: |cs[k].body| >= 16)
            && exists i: nat, j: nat :: LastAt(cs, "fmt ", i) && LastAt(cs, "data", j) && PlayParts(cs[i], cs[j], p)
  {
    hide Spells, Named;
    forall k | 0 <= k < |cs|
      ensures (cs[k].id == FMT <==> Spells(cs[k].id, "fmt ")) && (cs[k].id == DATA <==> Spells(cs[k].id, "data")) {
      TagsExact(cs[k].id);
    }
    if Playable(cs, p) {
      var i := LastNamed(cs, FMT);
      var j := LastNamed(cs, DATA);
      NamedLast(cs, FMT, i);
      NamedLast(cs, DATA, j);
      FormatPlays(cs[i].body, p.rate, p.channels);
      assert LastAt(cs, "fmt ", i) && LastAt(cs, "data", j) && PlayParts(cs[i], cs[j], p);
      forall k | 0 <= k < |cs| && cs[k].id == FMT ensures |cs[k].body| >= 16 {
        NamedMember(cs, FMT, cs[k].body);
        assert cs[k] == Chunk(FMT, cs[k].body);
      }
    }
    if (forall k | 0 <= k < |cs| && cs[k].id == FMT :: |cs[k].body| >= 16)
       && exists i: nat, j: nat :: LastAt(cs, "fmt ", i) && LastAt(cs, "data", j) && PlayParts(cs[i], cs[j], p) {
      var i: nat, j: nat :| LastAt(cs, "fmt ", i) && LastAt(cs, "data", j) && PlayParts(cs[i], cs[j], p);
      NamedLast(cs, FMT, i);
      NamedLast(cs, DATA, j);
      FormatPlays(cs[i].body, p.rate, p.channels);
      forall f | f in Named(cs, FMT) ensures |f| >= 16 { NamedMember(cs, FMT, f); }
    }
  }

  lemma FormatPlays(f: seq<byte>, rate: nat, channels: nat)
    ensures PlayFormat(f, rate, channels) <==>
            |f| >= 16 && U16(f, 0) == 1 && U16(f, 14) == 16 && U16(f, 2) == channels > 0 && U32(f, 4) == rate > 0
  {
    if |f| >= 16 {
      Bytes16(f[0], f[1], 1);
      Bytes16(f[14], f[15], 16);
    }
  }

  // The decoder leaves up to seven bytes at the end alone, and a missing last pad,
  // and nothing else.
  lemma {:induction false} LooseTail(ps: seq<Padded>, tail: seq<byte>)
    requires AllWritable(ps) && |tail| < 8
    ensures Loose(Layout(ps) + tail) == Some(Strip(ps))
  {
    hide Bytes, U32, Le32;
    if ps == [] {
      assert Layout(ps) + tail == tail;
    } else {
      LooseTail(ps[1..], tail);
      assert Layout(ps) + tail == Bytes(ps[0]) + (Layout(ps[1..]) + tail);
      BytesParts(ps[0], Layout(ps[1..]) + tail);
    }
  }

  lemma LooseOne(c: Chunk)
    requires Writable(c)
    ensures Loose(c.id + Le32(|c.body|) + c.body) == Some([c])
  {
    hide U32, Le32;
    var last := c.id + Le32(|c.body|) + c.body;
    assert last[4..8] == Le32(|c.body|);
    U32At(last, Le32(|c.body|), 4, 0);
    U32Le32(|c.body|);
    assert last[8..8 + |c.body|] == c.body && last[..4] == c.id;
    assert Loose([]) == Some([]);
    assert last[|last|..] == [] && [c] + [] == [c];
  }

  lemma {:induction false} LooseUnpadded(ps: seq<Padded>, c: Chunk)
    requires AllWritable(ps) && Writable(c)
    ensures Loose(Layout(ps) + (c.id + Le32(|c.body|) + c.body)) == Some(Strip(ps) + [c])
  {
    hide Bytes, U32, Le32;
    var last := c.id + Le32(|c.body|) + c.body;
    if ps == [] {
      assert Layout(ps) + last == last && [] + [c] == [c];
      LooseOne(c);
    } else {
      LooseUnpadded(ps[1..], c);
      assert Layout(ps) + last == Bytes(ps[0]) + (Layout(ps[1..]) + last);
      BytesParts(ps[0], Layout(ps[1..]) + last);
      assert [ps[0].chunk] + (Strip(ps[1..]) + [c]) == Strip(ps) + [c];
    }
  }

  lemma {:induction false} LooseShort(ps: seq<Padded>, id: seq<byte>, n: nat, body: seq<byte>)
    requires AllWritable(ps) && |id| == 4 && |body| < n < WORD
    ensures Loose(Layout(ps) + (id + Le32(n) + body)) == None
  {
    hide Bytes, U32, Le32;
    var last := id + Le32(n) + body;
    if ps == [] {
      assert Layout(ps) + last == last && last[4..8] == Le32(n);
      U32At(last, Le32(n), 4, 0);
      U32Le32(n);
    } else {
      LooseShort(ps[1..], id, n, body);
      assert Layout(ps) + last == Bytes(ps[0]) + (Layout(ps[1..]) + last);
      BytesParts(ps[0], Layout(ps[1..]) + last);
    }
  }
}
