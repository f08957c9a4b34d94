// RIFF/WAVE files (Multimedia Programming Interface and Data Specifications 1.0,
// chapters 2 and 3): the chunk grammar, and what each of the repository's
// readers accepts, said on the list of chunks rather than on byte positions.
module WavModel {
  import opened Options

  type byte = x: int | 0 <= x < 256

  const WORD: int := 0x1_0000_0000

  const RIFF: seq<byte> := [82, 73, 70, 70]
  const WAVE: seq<byte> := [87, 65, 86, 69]
  const FMT: seq<byte> := [102, 109, 116, 32]
  const DATA: seq<byte> := [100, 97, 116, 97]

  // --- little-endian integers -------------------------------------------------

  function U16(s: seq<byte>, i: nat): nat
    requires i + 2 <= |s|
  {
    s[i] as int + 0x100 * (s[i + 1] as int)
  }

  function U32(s: seq<byte>, i: nat): (n: nat)
    requires i + 4 <= |s|
    ensures n < WORD
  {
    s[i] as int + 0x100 * (s[i + 1] as int) + 0x1_0000 * (s[i + 2] as int) + 0x100_0000 * (s[i + 3] as int)
  }

  function Le16(n: nat): (s: seq<byte>)
    ensures |s| == 2
  {
    [n % 0x100, n / 0x100 % 0x100]
  }

  // The low 32 bits.
  function Le32(n: nat): (s: seq<byte>)
    ensures |s| == 4
  {
    [n % 0x100, n / 0x100 % 0x100, n / 0x1_0000 % 0x100, n / 0x100_0000 % 0x100]
  }

  lemma U32Le32(n: nat)
    requires n < WORD
    ensures U32(Le32(n), 0) == n
  {
    var a, b := n / 0x100, n / 0x1_0000;
    assert b == a / 0x100 && n / 0x100_0000 == b / 0x100;
  }

  // Adding a multiple of 256 * d leaves that byte alone.
  lemma SameByte(n: nat, m: nat, d: nat, q: nat)
    requires d > 0 && n == m + d * (0x100 * q)
    ensures n / d % 0x100 == m / d % 0x100
  {
    var x := m / d;
    assert n == d * (x + 0x100 * q) + m % d;
    Quotient(n, d, x + 0x100 * q, m % d);
    assert (x + 0x100 * q) % 0x100 == x % 0x100;
  }

  lemma MulGrows(d: nat, x: int)
    ensures x >= 1 ==> d * x >= d
  {
    if x >= 1 { assert d * x == d + d * (x - 1); }
  }

  lemma Quotient(n: int, d: nat, k: int, r: nat)
    requires r < d && n == d * k + r
    ensures n / d == k
  {
    var j := n / d;
    assert d * (j - k) == r - n % d;
    assert d * (k - j) == n % d - r;
    MulGrows(d, j - k);
    MulGrows(d, k - j);
  }

  lemma U32Wraps(n: nat)
    ensures U32(Le32(n), 0) == n % WORD
  {
    var m := n % WORD;
    var q := n / WORD;
    SameByte(n, m, 1, 0x100_0000 * q);
    SameByte(n, m, 0x100, 0x1_0000 * q);
    SameByte(n, m, 0x1_0000, 0x100 * q);
    SameByte(n, m, 0x100_0000, q);
    assert Le32(n) == Le32(m);
    hide Le32, U32;
    U32Le32(m);
  }

  // --- the grammar ------------------------------------------------------------

  // pad is written after a body of odd length, and only then.
  datatype Chunk = Chunk(id: seq<byte>, body: seq<byte>)

  datatype Padded = Padded(chunk: Chunk, pad: byte)

  predicate Writable(c: Chunk) { |c.id| == 4 && |c.body| < WORD }

  function Bytes(p: Padded): (s: seq<byte>)
    ensures |s| == |p.chunk.id| + 4 + |p.chunk.body| + |p.chunk.body| % 2
  {
    p.chunk.id + Le32(|p.chunk.body|) + p.chunk.body + if |p.chunk.body| % 2 == 1 then [p.pad] else []
  }

  function Layout(ps: seq<Padded>): seq<byte> {
    if ps == [] then [] else Bytes(ps[0]) + Layout(ps[1..])
  }

  function Strip(ps: seq<Padded>): (cs: seq<Chunk>)
    ensures |cs| == |ps|
  {
    if ps == [] then [] else [ps[0].chunk] + Strip(ps[1..])
  }

  predicate AllWritable(ps: seq<Padded>) { forall p | p in ps :: Writable(p.chunk) }

  function File(ps: seq<Padded>): seq<byte> { RIFF + Le32(4 + |Layout(ps)|) + WAVE + Layout(ps) }

  // --- reading chunks ---------------------------------------------------------

  // Every byte belongs to a complete chunk, pads included.
  function Chunks(s: seq<byte>): Option<seq<Chunk>>
    decreases |s|
  {
    if s == [] then Some([])
    else if |s| < 8 then None
    else
      var n := U32(s, 4);
      if 8 + n + n % 2 > |s| then None
      else
        var rest := Chunks(s[8 + n + n % 2..]);
        if rest.None? then None else Some([Chunk(s[..4], s[8..8 + n])] + rest.value)
  }

  // Stops before fewer than eight bytes and does not miss a last pad.
  function Loose(s: seq<byte>): Option<seq<Chunk>>
    decreases |s|
  {
    if |s| < 8 then Some([])
    else
      var n := U32(s, 4);
      if 8 + n > |s| then None
      else
        var rest := Loose(s[if 8 + n + n % 2 > |s| then |s| else 8 + n + n % 2..]);
        if rest.None? then None else Some([Chunk(s[..4], s[8..8 + n])] + rest.value)
  }

  function Named(cs: seq<Chunk>, id: seq<byte>): (r: seq<seq<byte>>)
    ensures |r| <= |cs|
  {
    if cs == [] then []
    else (if cs[0].id == id then [cs[0].body] else []) + Named(cs[1..], id)
  }

  // --- what the readers accept ------------------------------------------------

  // PCM16 mono at 16 kHz; a longer format chunk is fine.
  predicate Standard(f: seq<byte>) {
    && |f| >= 16
    && U16(f, 0) == 1 && U16(f, 2) == 1 && U32(f, 4) == 16000 && U32(f, 8) == 32000 && U16(f, 12) == 2
    && U16(f, 14) == 16
  }

  predicate Complete(wav: seq<byte>) {
    && |wav| >= 12
    && wav[..4] == RIFF && wav[8..12] == WAVE
    && U32(wav, 4) + 8 == |wav|
  }

  // Exactly one standard format chunk and exactly one data chunk, with whole samples.
  predicate Speech(cs: seq<Chunk>, pcm: seq<byte>) {
    && |Named(cs, FMT)| == 1 && Standard(Named(cs, FMT)[0])
    && Named(cs, DATA) == [pcm] && |pcm| > 0 && |pcm| % 2 == 0
  }

  ghost predicate Accepts(wav: seq<byte>, pcm: seq<byte>) {
    Complete(wav) && Chunks(wav[12..]).Some? && Speech(Chunks(wav[12..]).value, pcm)
  }

  datatype Pcm = Pcm(data: seq<byte>, rate: nat, channels: nat)

  function Last(s: seq<seq<byte>>): seq<byte>
    requires s != []
  {
    s[|s| - 1]
  }

  // 16-bit PCM of any rate and channel count; the last format and data chunk count.
  predicate Playable(cs: seq<Chunk>, p: Pcm) {
    var fs := Named(cs, FMT);
    var ds := Named(cs, DATA);
    && fs != [] && ds != []
    && (forall f | f in fs :: |f| >= 16)
    && |Last(fs)| >= 16
    && U16(Last(fs), 0) == 1 && U16(Last(fs), 14) == 16
    && U16(Last(fs), 2) == p.channels > 0 && U32(Last(fs), 4) == p.rate > 0
    && Last(ds) == p.data && |p.data| % 2 == 0
  }

  predicate Decodes(wav: seq<byte>, p: Pcm) {
    && |wav| >= 12 && wav[..4] == RIFF && wav[8..12] == WAVE
    && Loose(wav[12..]).Some? && Playable(Loose(wav[12..]).value, p)
  }

  // --- the grammar and the reader agree ---------------------------------------

  lemma U32At(s: seq<byte>, t: seq<byte>, i: nat, j: nat)
    requires i + 4 <= |s| && j + 4 <= |t| && s[i..i + 4] == t[j..j + 4]
    ensures U32(s, i) == U32(t, j)
  {
    assert s[i] == s[i..i + 4][0] && s[i + 1] == s[i..i + 4][1] && s[i + 2] == s[i..i + 4][2]
           && s[i + 3] == s[i..i + 4][3];
    assert t[j] == t[j..j + 4][0] && t[j + 1] == t[j..j + 4][1] && t[j + 2] == t[j..j + 4][2]
           && t[j + 3] == t[j..j + 4][3];
  }

  // The parts of one chunk followed by anything.
  lemma BytesParts(p: Padded, tail: seq<byte>)
    requires Writable(p.chunk)
    ensures var s := Bytes(p) + tail; var n := |p.chunk.body|;
      && |s| >= 8 + n + n % 2 && U32(s, 4) == n
      && s[..4] == p.chunk.id && s[8..8 + n] == p.chunk.body && s[8 + n + n % 2..] == tail
  {
    hide U32, Le32;
    var s := Bytes(p) + tail;
    var n := |p.chunk.body|;
    U32Le32(n);
    assert s[4..8] == Le32(n);
    assert Le32(n)[0..4] == Le32(n);
    U32At(s, Le32(n), 4, 0);
  }

  // Parsing what the grammar prints gives the chunks back...
  lemma {:induction false} LayoutParses(ps: seq<Padded>)
    requires AllWritable(ps)
    ensures Chunks(Layout(ps)) == Some(Strip(ps))
  {
    hide Bytes, U32, Le32;
    if ps != [] {
      LayoutParses(ps[1..]);
      BytesParts(ps[0], Layout(ps[1..]));
    }
  }

  // ...and whatever parses was printed by the grammar.
  lemma {:induction false} ParsedIsLayout(s: seq<byte>) returns (ps: seq<Padded>)
    requires Chunks(s).Some?
    ensures AllWritable(ps) && Layout(ps) == s && Strip(ps) == Chunks(s).value
    decreases |s|
  {
    if s == [] {
      ps := [];
    } else {
      var n := U32(s, 4);
      var rest := ParsedIsLayout(s[8 + n + n % 2..]);
      var p := Padded(Chunk(s[..4], s[8..8 + n]), if n % 2 == 1 then s[8 + n] else 0);
      ps := [p] + rest;
      assert ps[1..] == rest;
      HeadIsBytes(s, p);
    }
  }

  // The lowest digit of a number in base 256, and what is above it.
  lemma LastDigit(a: int, m: int)
    requires 0 <= a < 0x100
    ensures (a + 0x100 * m) % 0x100 == a && (a + 0x100 * m) / 0x100 == m
  {}

  lemma Digits(a: int, b: int, c: int, d: int)
    requires 0 <= a < 0x100 && 0 <= b < 0x100 && 0 <= c < 0x100 && 0 <= d < 0x100
    ensures var n := a + 0x100 * b + 0x1_0000 * c + 0x100_0000 * d;
            && n % 0x100 == a && n / 0x100 % 0x100 == b
            && n / 0x1_0000 % 0x100 == c && n / 0x100_0000 % 0x100 == d
  {
    var n := a + 0x100 * b + 0x1_0000 * c + 0x100_0000 * d;
    LastDigit(a, b + 0x100 * c + 0x1_0000 * d);
    LastDigit(b, c + 0x100 * d);
    LastDigit(c, d);
    assert n / 0x1_0000 == c + 0x100 * d;
  }

  lemma Le32U32(s: seq<byte>)
    requires |s| == 4
    ensures Le32(U32(s, 0)) == s
  {
    Digits(s[0] as int, s[1] as int, s[2] as int, s[3] as int);
  }

  lemma HeadIsBytes(s: seq<byte>, p: Padded)
    requires |s| >= 8
    requires var n := U32(s, 4); 8 + n + n % 2 <= |s|
    requires p == Padded(Chunk(s[..4], s[8..8 + U32(s, 4)]), if U32(s, 4) % 2 == 1 then s[8 + U32(s, 4)] else 0)
    ensures Bytes(p) == s[..8 + U32(s, 4) + U32(s, 4) % 2]
    ensures s == Bytes(p) + s[8 + U32(s, 4) + U32(s, 4) % 2..]
  {
    hide U32, Le32;
    var n := U32(s, 4);
    U32At(s, s[4..8], 4, 0);
    Le32U32(s[4..8]);
    assert Bytes(p) == s[..4] + s[4..8] + s[8..8 + n] + if n % 2 == 1 then [s[8 + n]] else [];
  }

  lemma FileParts(ps: seq<Padded>)
    ensures var wav := File(ps);
            |wav| == 12 + |Layout(ps)| && wav[..4] == RIFF && wav[8..12] == WAVE && wav[12..] == Layout(ps)
    ensures U32(File(ps), 4) == (4 + |Layout(ps)|) % WORD
  {
    hide U32, Le32;
    var wav := File(ps);
    U32Wraps(4 + |Layout(ps)|);
    assert wav[4..8] == Le32(4 + |Layout(ps)|);
    assert Le32(4 + |Layout(ps)|)[0..4] == Le32(4 + |Layout(ps)|);
    U32At(wav, Le32(4 + |Layout(ps)|), 4, 0);
  }

  // A file is accepted as speech exactly when it is the printed form of complete
  // chunks, one of them the standard format and one of them the samples.
  lemma AcceptsIffPrinted(wav: seq<byte>, pcm: seq<byte>)
    ensures Accepts(wav, pcm) <==>
      exists ps :: AllWritable(ps) && 4 + |Layout(ps)| < WORD && wav == File(ps) && Speech(Strip(ps), pcm)
  {
    hide U32, Le32, Speech, Chunks, Layout;
    if Accepts(wav, pcm) {
      var ps := ParsedIsLayout(wav[12..]);
      assert |Layout(ps)| == |wav| - 12;
      U32At(wav, wav[4..8], 4, 0);
      Le32U32(wav[4..8]);
      assert wav == wav[..4] + wav[4..8] + wav[8..12] + wav[12..];
      assert wav == File(ps);
    }
    if exists ps :: AllWritable(ps) && 4 + |Layout(ps)| < WORD && wav == File(ps) && Speech(Strip(ps), pcm) {
      var ps :| AllWritable(ps) && 4 + |Layout(ps)| < WORD && wav == File(ps) && Speech(Strip(ps), pcm);
      FileParts(ps);
      LayoutParses(ps);
    }
  }

  // --- unknown chunks ---------------------------------------------------------

  lemma {:induction false} NamedConcat(a: seq<Chunk>, b: seq<Chunk>, id: seq<byte>)
    ensures Named(a + b, id) == Named(a, id) + Named(b, id)
  {
    if a == [] {
      assert a + b == b;
    } else {
      assert (a + b)[0] == a[0] && (a + b)[1..] == a[1..] + b;
      NamedConcat(a[1..], b, id);
      var head := if a[0].id == id then [a[0].body] else [];
      assert head + (Named(a[1..], id) + Named(b, id)) == (head + Named(a[1..], id)) + Named(b, id);
    }
  }

  lemma {:induction false} StripConcat(a: seq<Padded>, b: seq<Padded>)
    ensures Strip(a + b) == Strip(a) + Strip(b)
  {
    if a == [] {
      assert a + b == b;
    } else {
      assert (a + b)[1..] == a[1..] + b;
      StripConcat(a[1..], b);
    }
  }

  lemma UnknownUnseen(a: seq<Padded>, x: Padded, b: seq<Padded>, id: seq<byte>)
    requires x.chunk.id != id
    ensures Named(Strip(a + [x] + b), id) == Named(Strip(a + b), id)
  {
    StripConcat(a + [x], b);
    StripConcat(a, [x]);
    StripConcat(a, b);
    NamedConcat(Strip(a) + Strip([x]), Strip(b), id);
    NamedConcat(Strip(a), Strip([x]), id);
    NamedConcat(Strip(a), Strip(b), id);
    assert Strip([x]) == [x.chunk];
    assert Named([x.chunk], id) == [];
  }

  // The strict readers do not see a chunk of any other name, odd-sized or not,
  // wherever it stands, as long as the size field still fits.
  lemma UnknownTolerated(a: seq<Padded>, x: Padded, b: seq<Padded>, pcm: seq<byte>)
    requires AllWritable(a + [x] + b) && x.chunk.id != FMT && x.chunk.id != DATA
    requires 4 + |Layout(a + [x] + b)| < WORD && 4 + |Layout(a + b)| < WORD
    ensures Accepts(File(a + [x] + b), pcm) <==> Accepts(File(a + b), pcm)
  {
    hide U32, Le32, Chunks, Layout, Strip, Named;
    FileParts(a + [x] + b);
    FileParts(a + b);
    LayoutParses(a + [x] + b);
    LayoutParses(a + b);
    UnknownUnseen(a, x, b, FMT);
    UnknownUnseen(a, x, b, DATA);
  }

  lemma {:induction false} ChunksAreLoose(s: seq<byte>)
    requires Chunks(s).Some?
    ensures Loose(s) == Chunks(s)
    decreases |s|
  {
    hide U32;
    if s != [] {
      var n := U32(s, 4);
      ChunksAreLoose(s[8 + n + n % 2..]);
    }
  }

  // The server's decoder does not see them either, whatever the size field says.
  lemma UnknownDecoded(a: seq<Padded>, x: Padded, b: seq<Padded>, p: Pcm)
    requires AllWritable(a + [x] + b) && x.chunk.id != FMT && x.chunk.id != DATA
    ensures Decodes(File(a + [x] + b), p) <==> Decodes(File(a + b), p)
  {
    hide U32, U16, Le32, Chunks, Loose, Layout, Strip, Named;
    FileParts(a + [x] + b);
    FileParts(a + b);
    LayoutParses(a + [x] + b);
    LayoutParses(a + b);
    ChunksAreLoose(Layout(a + [x] + b));
    ChunksAreLoose(Layout(a + b));
    UnknownUnseen(a, x, b, FMT);
    UnknownUnseen(a, x, b, DATA);
  }

  // Whatever a strict reader accepts, the server decodes to the same samples.
  lemma AcceptedDecodes(wav: seq<byte>, pcm: seq<byte>)
    requires Accepts(wav, pcm)
    ensures Decodes(wav, Pcm(pcm, 16000, 1))
  {
    hide U32, U16, Chunks, Loose, Named;
    ChunksAreLoose(wav[12..]);
    var cs := Chunks(wav[12..]).value;
    assert Last(Named(cs, FMT)) == Named(cs, FMT)[0] && Last([pcm]) == pcm;
  }

  // --- the writer -------------------------------------------------------------

  const FORMAT: seq<byte> := Le16(1) + Le16(1) + Le32(16000) + Le32(32000) + Le16(2) + Le16(16)

  // What the writer puts out: the canonical 44-byte header, then the samples.
  function Written(pcm: seq<byte>): seq<byte> {
    RIFF + Le32(|pcm| + 36) + WAVE + FMT + Le32(16) + FORMAT + DATA + Le32(|pcm|) + pcm
  }

  lemma FormatStandard()
    ensures |FORMAT| == 16 && Standard(FORMAT)
    ensures U16(FORMAT, 0) == 1 && U16(FORMAT, 2) == 1 && U32(FORMAT, 4) == 16000 && U16(FORMAT, 14) == 16
  {
  }

  lemma WrittenIsFile(pcm: seq<byte>)
    requires |pcm| < WORD && |pcm| % 2 == 0
    ensures Written(pcm) == File([Padded(Chunk(FMT, FORMAT), 0), Padded(Chunk(DATA, pcm), 0)])
    ensures AllWritable([Padded(Chunk(FMT, FORMAT), 0), Padded(Chunk(DATA, pcm), 0)])
  {
    hide Le32, Le16, U32, U16, Standard;
    FormatStandard();
    var f, d := Padded(Chunk(FMT, FORMAT), 0), Padded(Chunk(DATA, pcm), 0);
    assert [f, d][1..] == [d] && [d][1..] == [];
    assert Layout([d]) == Bytes(d);
    assert Layout([f, d]) == Bytes(f) + Bytes(d);
    assert Bytes(f) == FMT + Le32(16) + FORMAT;
    assert Bytes(d) == DATA + Le32(|pcm|) + pcm;
    assert |Layout([f, d])| == |pcm| + 32;
  }

  lemma WrittenParts(pcm: seq<byte>)
    ensures var wav := Written(pcm);
      && |wav| == |pcm| + 44 && wav[..4] == RIFF && wav[8..12] == WAVE && U32(wav, 4) == (|pcm| + 36) % WORD
      && wav[12..] == Bytes(Padded(Chunk(FMT, FORMAT), 0)) + (DATA + Le32(|pcm|) + pcm)
  {
    hide U32, Le32;
    FormatStandard();
    var wav := Written(pcm);
    var size := Le32(|pcm| + 36);
    U32Wraps(|pcm| + 36);
    assert wav[4..8] == size && size[0..4] == size;
    U32At(wav, size, 4, 0);
    assert Bytes(Padded(Chunk(FMT, FORMAT), 0)) == FMT + Le32(16) + FORMAT;
    assert wav[12..] == FMT + Le32(16) + FORMAT + (DATA + Le32(|pcm|) + pcm);
  }

  // The data chunk as written: never padded.
  lemma TailParts(pcm: seq<byte>)
    ensures var tail := DATA + Le32(|pcm|) + pcm;
            |tail| == 8 + |pcm| && U32(tail, 4) == |pcm| % WORD && tail[..4] == DATA && tail[8..] == pcm
  {
    hide U32, Le32;
    var tail := DATA + Le32(|pcm|) + pcm;
    U32Wraps(|pcm|);
    assert tail[4..8] == Le32(|pcm|) && Le32(|pcm|)[0..4] == Le32(|pcm|);
    U32At(tail, Le32(|pcm|), 4, 0);
  }

  lemma LooseWritten(pcm: seq<byte>)
    requires |pcm| < WORD
    ensures Loose(Written(pcm)[12..]) == Some([Chunk(FMT, FORMAT), Chunk(DATA, pcm)])
  {
    hide U32, Le32, Written, Bytes;
    WrittenParts(pcm);
    TailParts(pcm);
    FormatStandard();
    var f := Padded(Chunk(FMT, FORMAT), 0);
    var tail := DATA + Le32(|pcm|) + pcm;
    BytesParts(f, tail);
    assert tail[8..8 + |pcm|] == pcm;
    assert U32(tail, 4) == |pcm|;
    assert tail[|tail|..] == [] && Loose([]) == Some([]);
    assert Loose(tail) == Some([Chunk(DATA, pcm)] + []);
    var whole := Written(pcm)[12..];
    assert U32(whole, 4) == 16 && whole[8 + 16 + 16 % 2..] == tail && whole[8..8 + 16] == FORMAT;
    assert [Chunk(FMT, FORMAT)] + ([Chunk(DATA, pcm)] + []) == [Chunk(FMT, FORMAT), Chunk(DATA, pcm)];
  }

  lemma ChunksWritten(pcm: seq<byte>)
    requires |pcm| < WORD
    ensures Chunks(Written(pcm)[12..]) ==
      if |pcm| % 2 == 0 then Some([Chunk(FMT, FORMAT), Chunk(DATA, pcm)]) else None
  {
    hide U32, Le32, Written, Bytes;
    WrittenParts(pcm);
    TailParts(pcm);
    FormatStandard();
    var f := Padded(Chunk(FMT, FORMAT), 0);
    var tail := DATA + Le32(|pcm|) + pcm;
    BytesParts(f, tail);
    assert U32(tail, 4) == |pcm|;
    var whole := Written(pcm)[12..];
    assert U32(whole, 4) == 16 && whole[8 + 16 + 16 % 2..] == tail && whole[8..8 + 16] == FORMAT;
    assert [Chunk(FMT, FORMAT)] + ([Chunk(DATA, pcm)] + []) == [Chunk(FMT, FORMAT), Chunk(DATA, pcm)];
    if |pcm| % 2 == 0 {
      assert tail[8..8 + |pcm|] == pcm;
      assert tail[|tail|..] == [] && Chunks([]) == Some([]);
      assert Chunks(tail) == Some([Chunk(DATA, pcm)] + []);
    } else {
      assert Chunks(tail) == None;
    }
  }

  lemma NamedWritten(pcm: seq<byte>)
    ensures var cs := [Chunk(FMT, FORMAT), Chunk(DATA, pcm)]; Named(cs, FMT) == [FORMAT] && Named(cs, DATA) == [pcm]
  {
    var cs := [Chunk(FMT, FORMAT), Chunk(DATA, pcm)];
    assert cs[1..] == [Chunk(DATA, pcm)] && cs[1..][1..] == [];
    assert FMT[0] != DATA[0];
    assert Named(cs[1..], FMT) == [] && Named(cs[1..], DATA) == [pcm];
  }

  // A strict reader gets back exactly what was written, and it does so exactly
  // when there are whole samples, at least one, and the size field did not wrap.
  lemma StrictRoundTrip(pcm: seq<byte>, got: seq<byte>)
    ensures Accepts(Written(pcm), got) <==> got == pcm && |pcm| > 0 && |pcm| % 2 == 0 && |pcm| + 36 < WORD
  {
    hide U32, Le32, Written, Chunks, Named, Standard;
    WrittenParts(pcm);
    if |pcm| + 36 < WORD {
      ChunksWritten(pcm);
      NamedWritten(pcm);
      FormatStandard();
    }
  }

  lemma {:induction false} LooseBounded(s: seq<byte>, c: Chunk)
    requires Loose(s).Some? && c in Loose(s).value
    ensures |c.body| < WORD
    decreases |s|
  {
    var n := U32(s, 4);
    if c != Loose(s).value[0] { LooseBounded(s[if 8 + n + n % 2 > |s| then |s| else 8 + n + n % 2..], c); }
  }

  lemma {:induction false} NamedFrom(cs: seq<Chunk>, id: seq<byte>, body: seq<byte>)
    requires body in Named(cs, id)
    ensures Chunk(id, body) in cs
  {
    if !(cs[0].id == id && cs[0].body == body) { NamedFrom(cs[1..], id, body); }
  }

  lemma DecodedBounded(wav: seq<byte>, p: Pcm)
    requires Decodes(wav, p)
    ensures |p.data| < WORD
  {
    hide U32, U16, Loose, Named;
    var cs := Loose(wav[12..]).value;
    assert p.data in Named(cs, DATA);
    NamedFrom(cs, DATA, p.data);
    LooseBounded(wav[12..], Chunk(DATA, p.data));
  }

  // The decoder recovers what was written exactly when there are whole samples
  // and the length fits its field; it ignores the size field of the file.
  lemma DecodeRoundTrip(pcm: seq<byte>)
    ensures Decodes(Written(pcm), Pcm(pcm, 16000, 1)) <==> |pcm| % 2 == 0 && |pcm| < WORD
    ensures |pcm| < WORD ==> forall p :: Decodes(Written(pcm), p) ==> p == Pcm(pcm, 16000, 1)
  {
    hide U32, U16, Le32, Written, Loose, Named, Standard;
    WrittenParts(pcm);
    if Decodes(Written(pcm), Pcm(pcm, 16000, 1)) { DecodedBounded(Written(pcm), Pcm(pcm, 16000, 1)); }
    if |pcm| < WORD {
      LooseWritten(pcm);
      NamedWritten(pcm);
      FormatStandard();
      assert Last([FORMAT]) == FORMAT && Last([pcm]) == pcm;
    }
  }
}
