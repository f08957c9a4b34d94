// Segmentation of a growing text into speech chunks. A text is a sequence of
// characters; limits count characters.
module ChunkerModel {
  import opened Arithmetic

  datatype Limits = Limits(soft: nat, hard: nat)

  predicate Usable(l: Limits) { 1 <= l.soft <= l.hard }

  // Absent limits take their defaults and the hard one is never below the soft one.
  function MakeLimits(soft: int, hard: int): (l: Limits)
    ensures Usable(l)
    ensures soft > 0 ==> l.soft == soft
    ensures 0 < soft <= hard ==> l.hard == hard
    ensures soft <= 0 ==> l.soft == 40
    ensures hard <= 0 && l.soft <= 80 ==> l.hard == 80
    ensures 0 < hard < l.soft || (hard <= 0 && l.soft > 80) ==> l.hard == l.soft
  {
    var s := if soft <= 0 then 40 else soft;
    var h := if hard <= 0 then 80 else hard;
    Limits(s, if h < s then s else h)
  }

  // --- characters ------------------------------------------------------------

  // Unicode white space.
  predicate Space(c: char) {
    || c == '\t' || c == '\n' || c == '\U{0B}' || c == '\U{0C}' || c == '\r' || c == ' ' || c == '\U{85}'
    || c == '\U{A0}'
    || c == '\U{1680}' || '\U{2000}' <= c <= '\U{200A}' || c == '\U{2028}' || c == '\U{2029}' || c == '\U{202F}'
    || c == '\U{205F}' || c == '\U{3000}'
  }

  // What is dropped in front of the text that follows a cut.
  predicate Blank(c: char) { c == ' ' || c == '\t' || c == '\r' || c == '\n' }

  function Priority(c: char): nat {
    if c == '。' || c == '！' || c == '？' || c == '!' || c == '?' || c == '\n' then 3
    else if c == '、' || c == ',' || c == '，' || c == ';' || c == '；' || c == ':' || c == '：' then 2
    else 0
  }

  predicate Stop(c: char) { Priority(c) > 0 }

  function TrimLeft(s: string): (t: string)
    ensures |t| <= |s| && (t != "" ==> !Blank(t[0]))
  {
    if s != "" && Blank(s[0]) then TrimLeft(s[1..]) else s
  }

  function TrimStart(s: string): (t: string)
    ensures |t| <= |s| && (t != "" ==> !Space(t[0]))
  {
    if s != "" && Space(s[0]) then TrimStart(s[1..]) else s
  }

  function TrimEnd(s: string): (t: string)
    ensures t <= s && (t != "" ==> !Space(t[|t| - 1]))
  {
    if s != "" && Space(s[|s| - 1]) then TrimEnd(s[..|s| - 1]) else s
  }

  function TrimSpace(s: string): (t: string)
    ensures |t| <= |s| && (t != "" ==> !Space(t[0]) && !Space(t[|t| - 1]))
  {
    TrimEnd(TrimStart(s))
  }

  // --- where to cut ----------------------------------------------------------

  // The first stop in text[from..until], or `until`.
  function FirstStop(text: string, from: nat, until: nat): (k: nat)
    requires from <= until <= |text|
    ensures from <= k <= until
    ensures k < until ==> Stop(text[k])
    ensures forall i | from <= i < k :: !Stop(text[i])
    decreases until - from
  {
    if from == until || Stop(text[from]) then from else FirstStop(text, from + 1, until)
  }

  // The end of the last stop of the highest priority among the first n characters; 0 if none.
  function BestStop(text: string, n: nat): (end: nat)
    requires n <= |text|
    ensures end <= n && (end > 0 ==> Stop(text[end - 1]))
    ensures forall i | 0 <= i < n :: if end == 0 then !Stop(text[i]) else Priority(text[i]) <= Priority(text[end - 1])
    ensures forall i | end <= i < n && end > 0 :: Priority(text[i]) < Priority(text[end - 1])
  {
    if n == 0 then 0
    else
      var b := BestStop(text, n - 1);
      if Stop(text[n - 1]) && (b == 0 || Priority(text[n - 1]) >= Priority(text[b - 1])) then n else b
  }

  // Cut after the first stop at or beyond the soft limit; at the hard limit fall
  // back to the best earlier stop, or cut there; a flush takes everything.
  function Cut(l: Limits, text: string, flush: bool): (cut: nat)
    requires Usable(l)
    ensures cut <= Min(|text|, l.hard) || (flush && cut == |text| < l.hard)
  {
    var until := Min(|text|, l.hard);
    var k := FirstStop(text, Min(l.soft - 1, until), until);
    if k < until then k + 1
    else if |text| >= l.hard then (if BestStop(text, l.soft - 1) > 0 then BestStop(text, l.soft - 1) else l.hard)
    else if flush then |text| else 0
  }

  lemma CutPositive(l: Limits, text: string, flush: bool)
    requires Usable(l)
    ensures Cut(l, text, flush) == 0 ==> |text| < l.hard && (flush ==> text == "")
    ensures Cut(l, text, flush) <= l.hard && Cut(l, text, flush) <= |text|
  {}

  // --- extraction ------------------------------------------------------------

  datatype Extraction = Extraction(chunks: seq<string>, rest: string)

  function Piece(s: string): seq<string> { if TrimSpace(s) == "" then [] else [TrimSpace(s)] }

  // Cut as long as there is something to cut.
  function Extract(l: Limits, text: string, flush: bool): Extraction
    requires Usable(l)
    decreases |text|
  {
    var cut := Cut(l, text, flush);
    if cut == 0 then Extraction([], text)
    else
      CutPositive(l, text, flush);
      var more := Extract(l, TrimLeft(text[cut..]), flush);
      Extraction(Piece(text[..cut]) + more.chunks, more.rest)
  }

  // --- limits ----------------------------------------------------------------

  lemma PieceLimits(s: string)
    ensures forall c | c in Piece(s) :: 0 < |c| <= |s| && !Space(c[0]) && !Space(c[|c| - 1])
  {}

  // Every chunk is non-empty, trimmed and within the hard limit; what stays
  // behind is below it, and nothing stays behind a flush.
  lemma {:induction false} ExtractLimits(l: Limits, text: string, flush: bool)
    requires Usable(l)
    ensures forall c | c in Extract(l, text, flush).chunks ::
              0 < |c| <= l.hard && !Space(c[0]) && !Space(c[|c| - 1])
    ensures |Extract(l, text, flush).rest| < l.hard
    ensures flush ==> Extract(l, text, flush).rest == ""
    decreases |text|
  {
    hide Cut, Space, TrimLeft, TrimSpace, Extract;
    CutPositive(l, text, flush);
    ExtractStep(l, text, flush);
    var cut := Cut(l, text, flush);
    if cut > 0 {
      PieceLimits(text[..cut]);
      ExtractLimits(l, TrimLeft(text[cut..]), flush);
    }
  }

  // --- nothing but white space is lost ---------------------------------------

  function Ink(s: string): string {
    if s == "" then "" else (if Space(s[0]) then "" else [s[0]]) + Ink(s[1..])
  }

  function Joined(chunks: seq<string>): string { if chunks == [] then "" else chunks[0] + Joined(chunks[1..]) }

  lemma Regroup(a: string, b: string, c: string, r: string, x: string, y: string, z: string)
    requires b + c == r + z && a + r == x + y
    ensures (a + b) + c == x + (y + z)
  {
    assert (a + b) + c == a + (b + c);
    assert a + (r + z) == (a + r) + z;
    assert (x + y) + z == x + (y + z);
  }

  lemma EmptyInk()
    ensures Ink("") == "" && Joined([]) == ""
  {}

  lemma {:induction false} InkConcat(a: string, b: string)
    ensures Ink(a + b) == Ink(a) + Ink(b)
  {
    if a == "" {
      assert a + b == b;
    } else {
      assert (a + b)[1..] == a[1..] + b;
      InkConcat(a[1..], b);
    }
  }

  lemma {:induction false} InkTrimLeft(s: string)
    ensures Ink(TrimLeft(s)) == Ink(s)
  {
    if s != "" && Blank(s[0]) { InkTrimLeft(s[1..]); }
  }

  lemma {:induction false} InkTrimStart(s: string)
    ensures Ink(TrimStart(s)) == Ink(s)
  {
    if s != "" && Space(s[0]) { InkTrimStart(s[1..]); }
  }

  lemma {:induction false} InkTrimEnd(s: string)
    ensures Ink(TrimEnd(s)) == Ink(s)
  {
    if s != "" && Space(s[|s| - 1]) {
      InkTrimEnd(s[..|s| - 1]);
      assert s == s[..|s| - 1] + [s[|s| - 1]];
      InkConcat(s[..|s| - 1], [s[|s| - 1]]);
      assert Ink([s[|s| - 1]]) == "";
    }
  }

  lemma {:induction false} JoinedConcat(a: seq<string>, b: seq<string>)
    ensures Joined(a + b) == Joined(a) + Joined(b)
  {
    if a == [] {
      assert a + b == b;
    } else {
      assert (a + b)[1..] == a[1..] + b;
      JoinedConcat(a[1..], b);
    }
  }

  lemma InkPiece(s: string)
    ensures Ink(Joined(Piece(s))) == Ink(s)
  {
    InkTrimStart(s);
    InkTrimEnd(TrimStart(s));
    if TrimSpace(s) != "" {
      assert Joined([TrimSpace(s)]) == TrimSpace(s) + Joined([]);
      assert TrimSpace(s) + "" == TrimSpace(s);
    }
  }

  // The chunks and the rest hold every character that is not white space, in order.
  lemma {:induction false} ExtractInk(l: Limits, text: string, flush: bool)
    requires Usable(l)
    ensures Ink(Joined(Extract(l, text, flush).chunks)) + Ink(Extract(l, text, flush).rest) == Ink(text)
    decreases |text|
  {
    hide Space, Cut, TrimSpace, TrimLeft, Piece, Ink, Joined;
    EmptyInk();
    CutPositive(l, text, flush);
    var cut := Cut(l, text, flush);
    if cut > 0 {
      var rest := TrimLeft(text[cut..]);
      ExtractInk(l, rest, flush);
      InkPiece(text[..cut]);
      InkTrimLeft(text[cut..]);
      assert text == text[..cut] + text[cut..];
      InkConcat(text[..cut], text[cut..]);
      JoinedConcat(Piece(text[..cut]), Extract(l, rest, flush).chunks);
      InkConcat(Joined(Piece(text[..cut])), Joined(Extract(l, rest, flush).chunks));
    }
  }

  // --- more text after a cut -------------------------------------------------

  lemma {:induction false} FirstStopStable(text: string, more: string, from: nat, until: nat, further: nat)
    requires from <= until <= |text| && until <= further <= |text + more|
    ensures FirstStop(text, from, until) < until ==>
            FirstStop(text + more, from, further) == FirstStop(text, from, until)
    ensures until == further ==> FirstStop(text + more, from, further) == FirstStop(text, from, until)
    decreases until - from
  {
    if from < until {
      assert (text + more)[from] == text[from];
      if !Stop(text[from]) { FirstStopStable(text, more, from + 1, until, further); }
    }
  }

  lemma {:induction false} BestStopStable(text: string, more: string, n: nat)
    requires n <= |text|
    ensures BestStop(text + more, n) == BestStop(text, n)
    decreases n
  {
    if n > 0 {
      BestStopStable(text, more, n - 1);
      assert (text + more)[n - 1] == text[n - 1];
      var b := BestStop(text, n - 1);
      if b > 0 { assert (text + more)[b - 1] == text[b - 1]; }
    }
  }

  // A cut once decided does not depend on what follows.
  lemma CutStable(l: Limits, text: string, more: string)
    requires Usable(l) && Cut(l, text, false) > 0
    ensures Cut(l, text + more, false) == Cut(l, text, false)
  {
    var until, further := Min(|text|, l.hard), Min(|text + more|, l.hard);
    var from := Min(l.soft - 1, until);
    if |text| >= l.soft - 1 {
      FirstStopStable(text, more, from, until, further);
      if |text| >= l.hard { BestStopStable(text, more, l.soft - 1); }
    }
  }

  lemma {:induction false} TrimLeftAppend(s: string, more: string)
    requires TrimLeft(s) != "" || more == "" || !Blank(more[0])
    ensures TrimLeft(s + more) == TrimLeft(s) + more
  {
    if s != "" && Blank(s[0]) {
      assert (s + more)[1..] == s[1..] + more;
      TrimLeftAppend(s[1..], more);
    } else if s == "" {
      assert s + more == more;
      if more != "" { assert TrimLeft(more) == more; }
    } else {
      assert (s + more)[0] == s[0];
    }
  }

  // Something was cut off and nothing is left: the next character starts a text
  // in front of which blanks would have been dropped.
  predicate AfterCut(l: Limits, text: string)
    requires Usable(l)
  {
    Extract(l, text, false).rest == "" && text != ""
  }

  // Text arriving in two pieces is cut as if it had arrived in one, unless the
  // second begins with blanks where the first was cut off completely.
  lemma {:induction false} ExtractAppend(l: Limits, text: string, more: string)
    requires Usable(l) && (AfterCut(l, text) && more != "" ==> !Blank(more[0]))
    ensures Extract(l, text + more, false) ==
            var first := Extract(l, text, false);
            var second := Extract(l, first.rest + more, false);
            Extraction(first.chunks + second.chunks, second.rest)
    decreases |text|
  {
    hide Extract, Cut, TrimLeft, Piece, Blank;
    ExtractStep(l, text, false);
    var cut := Cut(l, text, false);
    if cut > 0 {
      var rest := TrimLeft(text[cut..]);
      CutStable(l, text, more);
      ExtractStep(l, text + more, false);
      SliceAppend(text, more, cut);
      assert rest == "" ==> AfterCut(l, text) by { EmptyExtract(l, false); }
      TrimLeftAppend(text[cut..], more);
      ExtractAppend(l, rest, more);
      PrependPiece(Piece(text[..cut]), Extract(l, rest, false), Extract(l, Extract(l, rest, false).rest + more, false));
    } else {
      PrependPiece([], Extraction([], text), Extract(l, text + more, false));
    }
  }

  lemma EmptyExtract(l: Limits, flush: bool)
    requires Usable(l)
    ensures Extract(l, "", flush) == Extraction([], "")
  {
    CutPositive(l, "", flush);
  }

  lemma SliceAppend(text: string, more: string, cut: nat)
    requires cut <= |text|
    ensures (text + more)[cut..] == text[cut..] + more && (text + more)[..cut] == text[..cut]
  {}

  lemma PrependPiece(piece: seq<string>, first: Extraction, second: Extraction)
    ensures piece + (first.chunks + second.chunks) == (piece + first.chunks) + second.chunks
    ensures [] + second.chunks == second.chunks
  {}

  lemma ExtractStep(l: Limits, text: string, flush: bool)
    requires Usable(l)
    ensures var cut := Cut(l, text, flush);
            cut <= |text|
            && Extract(l, text, flush) ==
               if cut == 0 then Extraction([], text)
               else var more := Extract(l, TrimLeft(text[cut..]), flush);
                    Extraction(Piece(text[..cut]) + more.chunks, more.rest)
  {
    CutPositive(l, text, flush);
  }

  // Feeding deltas one after another into a buffer.
  function Feed(l: Limits, buffer: string, deltas: seq<string>): Extraction
    requires Usable(l)
    decreases |deltas|
  {
    if deltas == [] then Extraction([], buffer)
    else
      var step := Extract(l, buffer + deltas[0], false);
      var more := Feed(l, step.rest, deltas[1..]);
      Extraction(step.chunks + more.chunks, more.rest)
  }

  // All chunks of pushing the deltas one by one and then flushing.
  function Spoken(l: Limits, deltas: seq<string>): seq<string>
    requires Usable(l)
  {
    var fed := Feed(l, "", deltas);
    fed.chunks + Extract(l, fed.rest, true).chunks
  }

  lemma JoinedFirst(deltas: seq<string>)
    requires deltas != []
    ensures Joined(deltas) == deltas[0] + Joined(deltas[1..])
  {}

  // Over all text, whatever the split: only white space is dropped, order is
  // kept, and every chunk is within the hard limit.
  lemma {:induction false} FeedInk(l: Limits, buffer: string, deltas: seq<string>)
    requires Usable(l)
    ensures var fed := Feed(l, buffer, deltas);
            Ink(Joined(fed.chunks)) + Ink(fed.rest) == Ink(buffer) + Ink(Joined(deltas))
    ensures |buffer| < l.hard ==> |Feed(l, buffer, deltas).rest| < l.hard
    ensures forall c | c in Feed(l, buffer, deltas).chunks :: 0 < |c| <= l.hard
    decreases |deltas|
  {
    hide Extract, Ink, Cut;
    EmptyInk();
    if deltas != [] {
      var step := Extract(l, buffer + deltas[0], false);
      ExtractInk(l, buffer + deltas[0], false);
      ExtractLimits(l, buffer + deltas[0], false);
      FeedInk(l, step.rest, deltas[1..]);
      InkConcat(buffer, deltas[0]);
      InkConcat(deltas[0], Joined(deltas[1..]));
      var more := Feed(l, step.rest, deltas[1..]);
      JoinedConcat(step.chunks, more.chunks);
      InkConcat(Joined(step.chunks), Joined(more.chunks));
      JoinedFirst(deltas);
      Regroup(Ink(Joined(step.chunks)), Ink(Joined(more.chunks)), Ink(more.rest), Ink(step.rest),
              Ink(buffer), Ink(deltas[0]), Ink(Joined(deltas[1..])));
    }
  }

  lemma OnlySpaceDropped(l: Limits, deltas: seq<string>)
    requires Usable(l)
    ensures Ink(Joined(Spoken(l, deltas))) == Ink(Joined(deltas))
    ensures forall c | c in Spoken(l, deltas) :: 0 < |c| <= l.hard
  {
    hide Extract, Ink, Cut, Feed;
    EmptyInk();
    var fed := Feed(l, "", deltas);
    FeedInk(l, "", deltas);
    ExtractInk(l, fed.rest, true);
    ExtractLimits(l, fed.rest, true);
    var last := Extract(l, fed.rest, true);
    JoinedConcat(fed.chunks, last.chunks);
    InkConcat(Joined(fed.chunks), Joined(last.chunks));
    assert Ink(Joined(last.chunks)) + "" == Ink(Joined(last.chunks)) && "" + Ink(Joined(deltas)) == Ink(Joined(deltas));
  }
}
